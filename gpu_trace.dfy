/** The Vulkan driver as the renderer sees it.  GPU objects are opaque
    handles; every call the renderer makes is an event appended to a ghost
    trace, so the order of creation, recording, submission and destruction
    can be stated and proved. */
module GpuTrace {
  import opened Wrappers

  /** An opaque Vulkan handle.  The model hands them out from a counter, so
      two objects created by the renderer never share a handle. */
  type Handle = nat

  /** `VK_NULL_HANDLE`; the driver never hands it out. */
  const NULL_HANDLE: Handle := 0

  datatype ObjectKind =
    | Instance | Surface | DebugMessenger | LogicalDevice
    | Swapchain | ImageView | RenderPass | DescriptorSetLayout | ShaderModule
    | PipelineLayout | Pipeline | Framebuffer | CommandPool | Buffer | DeviceMemory
    | DescriptorPool | Semaphore | Fence

  /** `VkBufferUsageFlags` the renderer creates buffers with. */
  datatype BufferUsage = TransferSource | VertexDestination | IndexDestination | UniformBuffer

  datatype IndexType = Uint16 | Uint32

  /** Commands recorded into a command buffer. */
  datatype Command =
    | BeginRenderPass(renderPass: Handle, framebuffer: Handle)
    | BindPipeline(pipeline: Handle)
    | BindVertexBuffer(buffer: Handle)
    | BindIndexBuffer(buffer: Handle, indexType: IndexType)
    | BindDescriptorSet(layout: Handle, descriptorSet: Handle)
    | DrawIndexed(indexCount: nat)
    | EndRenderPass
    | CopyBuffer(source: Handle, destination: Handle)

  /** One driver call. */
  datatype Event =
    | Created(kind: ObjectKind, handle: Handle)
    | CreatedBuffer(buffer: Handle, usage: BufferUsage, memoryFlags: bv32)
    | CreatedFence(fence: Handle, signalled: bool)
    | CreatedImageView(view: Handle, image: Handle)
    | CreatedFramebuffer(framebuffer: Handle, renderPass: Handle, attachment: Handle)
    | GotSwapchainImages(swapchain: Handle, images: seq<Handle>)
    | Destroyed(kind: ObjectKind, handle: Handle)
    | BoundBufferMemory(buffer: Handle, memory: Handle)
    | MappedMemory(memory: Handle)
    | CopiedToMemory(memory: Handle)
    | UnmappedMemory(memory: Handle)
    | AllocatedCommandBuffers(pool: Handle, buffers: seq<Handle>)
    | FreedCommandBuffers(pool: Handle, buffers: seq<Handle>)
    | BeganCommandBuffer(buffer: Handle)
    | Recorded(buffer: Handle, command: Command)
    | EndedCommandBuffer(buffer: Handle)
    | AllocatedDescriptorSets(pool: Handle, layout: Handle, sets: seq<Handle>)
    | WroteDescriptorSet(descriptorSet: Handle, binding: nat, buffer: Handle)
    | WaitedForFence(fence: Handle)
    | ResetFence(fence: Handle)
    | AcquiredImage(swapchain: Handle, semaphore: Handle)
    | Submitted(buffer: Handle, waitSemaphores: seq<Handle>, signalSemaphores: seq<Handle>, signalFence: Option<Handle>)
    | Presented(swapchain: Handle, waitSemaphore: Handle, imageIndex: nat)
    | QueueWaitedIdle
    | DeviceWaitedIdle

  /** The handles `first`, `first + 1`, ..., `first + n - 1`. */
  function Handles(first: Handle, n: nat): (r: seq<Handle>)
    ensures |r| == n
    ensures forall i :: 0 <= i < n ==> r[i] == first + i
  {
    seq(n, i => first + i)
  }

  /** The handles a call hands out: the object it creates, or the list of
      images, command buffers or descriptor sets it returns. */
  function NewHandlesOf(e: Event): seq<Handle> {
    match e
    case Created(_, h) => [h]
    case CreatedBuffer(buffer, _, _) => [buffer]
    case CreatedFence(fence, _) => [fence]
    case CreatedImageView(view, _) => [view]
    case CreatedFramebuffer(framebuffer, _, _) => [framebuffer]
    case GotSwapchainImages(_, images) => images
    case AllocatedCommandBuffers(_, buffers) => buffers
    case AllocatedDescriptorSets(_, _, sets) => sets
    case _ => []
  }

  /** Every handle the calls of `trace` handed out. */
  ghost function HandedOut(trace: seq<Event>): set<Handle> {
    set e, h | e in trace && h in NewHandlesOf(e) :: h
  }

  /** No handle of `hs` is null or was handed out by a call of `trace`. */
  ghost predicate Unused(hs: seq<Handle>, trace: seq<Event>) {
    forall h :: h in hs ==> h != NULL_HANDLE && h !in HandedOut(trace)
  }

  lemma HandedOutAppend(trace: seq<Event>, e: Event)
    ensures HandedOut(trace + [e]) == HandedOut(trace) + (set h | h in NewHandlesOf(e))
  {
  }

  /** The events of several calls, one chunk per call, in order. */
  function Concat(chunks: seq<seq<Event>>): seq<Event>
    decreases |chunks|
  {
    if chunks == [] then [] else Concat(chunks[..|chunks| - 1]) + chunks[|chunks| - 1]
  }

  lemma ConcatAppend(chunks: seq<seq<Event>>, last: seq<Event>)
    ensures Concat(chunks + [last]) == Concat(chunks) + last
  {
    assert (chunks + [last])[..|chunks|] == chunks;
  }

  lemma {:induction false} ConcatJoin(a: seq<seq<Event>>, b: seq<seq<Event>>)
    ensures Concat(a + b) == Concat(a) + Concat(b)
    decreases |b|
  {
    if b == [] {
      assert a + b == a;
    } else {
      var init := b[..|b| - 1];
      assert (a + b)[..|a + b| - 1] == a + init;
      ConcatJoin(a, init);
    }
  }

  lemma {:induction false} ConcatLength(chunks: seq<seq<Event>>, width: nat)
    requires forall c :: c in chunks ==> |c| == width
    ensures |Concat(chunks)| == |chunks| * width
    decreases |chunks|
  {
    if chunks != [] {
      var init, last := chunks[..|chunks| - 1], chunks[|chunks| - 1];
      assert chunks == init + [last];
      assert forall c :: c in init ==> c in chunks;
      ConcatLength(init, width);
      ConcatAppend(init, last);
      MulSucc(|init|, width);
    }
  }

  /** Kept apart so that the multiplication is not reasoned about next to
      the sequence facts of the lemmas that use it. */
  lemma MulSucc(k: nat, width: nat)
    ensures (k + 1) * width == k * width + width
  {
  }

  /** When every chunk has `width` events, chunk `k` sits at positions
      `k * width` up to `(k + 1) * width` of the concatenation. */
  lemma ConcatUniform(chunks: seq<seq<Event>>, width: nat, k: nat)
    requires forall c :: c in chunks ==> |c| == width
    requires k < |chunks|
    ensures |Concat(chunks)| == |chunks| * width
    ensures k * width + width <= |Concat(chunks)|
    ensures Concat(chunks)[k * width .. k * width + width] == chunks[k]
  {
    var before, after := chunks[..k], chunks[k + 1..];
    assert chunks == before + ([chunks[k]] + after);
    ConcatJoin(before, [chunks[k]] + after);
    ConcatJoin([chunks[k]], after);
    assert Concat([chunks[k]]) == chunks[k] by {
      assert [chunks[k]][..0] == [];
    }
    var prefix, suffix := Concat(before), Concat(after);
    assert Concat(chunks) == prefix + chunks[k] + suffix;
    assert forall c :: c in before ==> c in chunks;
    ConcatLength(before, width);
    ConcatLength(chunks, width);
    assert |before| == k;
    assert |prefix| == k * width;
    assert (prefix + chunks[k] + suffix)[|prefix| .. |prefix| + width] == chunks[k];
  }

  /** An event of the concatenation comes from one of the chunks. */
  lemma {:induction false} ConcatMember(chunks: seq<seq<Event>>, e: Event)
    requires e in Concat(chunks)
    ensures exists k :: 0 <= k < |chunks| && e in chunks[k]
    decreases |chunks|
  {
    var init := chunks[..|chunks| - 1];
    if e in Concat(init) {
      ConcatMember(init, e);
      var k :| 0 <= k < |init| && e in init[k];
      assert chunks[k] == init[k];
    } else {
      assert e in chunks[|chunks| - 1];
    }
  }

  /** Every event of every chunk is in the concatenation. */
  lemma {:induction false} ConcatContains(chunks: seq<seq<Event>>, k: nat, e: Event)
    requires k < |chunks| && e in chunks[k]
    ensures e in Concat(chunks)
    decreases |chunks|
  {
    if k < |chunks| - 1 {
      var init := chunks[..|chunks| - 1];
      assert init[k] == chunks[k];
      ConcatContains(init, k, e);
    }
  }

  /** Regrouping the calls of a trace; proved once here so that methods
      appending several chunks do not each prove it again.  Writing the
      same equation as an `assert` inside those methods makes the solver
      prove sequence extensionality next to all their heap facts, which
      takes it past its resource limit. */
  lemma AppendAssoc(a: seq<Event>, b: seq<Event>, c: seq<Event>)
    ensures a + b + c == a + (b + c)
  {
  }

  /** The driver: hands out fresh handles and records every call.  Every
      handle a recorded call handed out is below the counter, so the counter
      always names a handle nobody holds yet. */
  class Driver {
    ghost var trace: seq<Event>
    var nextHandle: Handle

    ghost predicate Valid()
      reads this
    {
      && NULL_HANDLE < nextHandle
      && forall h :: h in HandedOut(trace) ==> NULL_HANDLE < h < nextHandle
    }

    constructor ()
      ensures Valid()
      ensures trace == [] && nextHandle == NULL_HANDLE + 1
    {
      trace := [];
      nextHandle := NULL_HANDLE + 1;
    }

    /** A call that creates nothing new, or records objects whose handles
        were reserved with `NewHandles`. */
    method Call(e: Event)
      requires Valid()
      requires forall h :: h in NewHandlesOf(e) ==> NULL_HANDLE < h < nextHandle
      modifies this`trace
      ensures Valid()
      ensures trace == old(trace) + [e]
    {
      HandedOutAppend(trace, e);
      trace := trace + [e];
    }

    /** `vkCreate*`: a new object of the given kind, with a handle that is
        not null and that no earlier call handed out. */
    method Create(kind: ObjectKind) returns (h: Handle)
      requires Valid()
      modifies this
      ensures Valid()
      ensures h != NULL_HANDLE && h !in HandedOut(old(trace))
      ensures h == old(nextHandle) && nextHandle == h + 1
      ensures trace == old(trace) + [Created(kind, h)]
    {
      h := nextHandle;
      nextHandle := nextHandle + 1;
      HandedOutAppend(trace, Created(kind, h));
      trace := trace + [Created(kind, h)];
    }

    /** `vkDestroy*` / `vkFree*` of one object. */
    method Destroy(kind: ObjectKind, h: Handle)
      requires Valid()
      modifies this`trace
      ensures Valid()
      ensures trace == old(trace) + [Destroyed(kind, h)]
    {
      HandedOutAppend(trace, Destroyed(kind, h));
      trace := trace + [Destroyed(kind, h)];
    }

    /** Fresh handles for a call that returns several objects at once
        (`vkAllocateCommandBuffers`, `vkAllocateDescriptorSets`,
        `vkGetSwapchainImagesKHR`); the caller records the call itself.
        None of them is null or was handed out by an earlier call. */
    method NewHandles(n: nat) returns (hs: seq<Handle>)
      requires Valid()
      modifies this`nextHandle
      ensures Valid()
      ensures Unused(hs, trace)
      ensures hs == Handles(old(nextHandle), n) && nextHandle == old(nextHandle) + n
    {
      hs := Handles(nextHandle, n);
      nextHandle := nextHandle + n;
    }
  }
}
