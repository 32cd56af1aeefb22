/** The swapchain and memory policies of `share.rs`: which surface format,
    present mode, extent and image count the swapchain is created with, how
    its images are shared between queue families, and which memory type a
    buffer is bound to.  Each is a pure search or clamp over values the driver
    reports. */
module SwapchainPolicy {
  import opened Wrappers
  import opened VkTypes

  // ---------------------------------------------------------------- format

  /** Scan for the preferred (B8G8R8A8_SRGB, SRGB_NONLINEAR) pair. */
  function FindPreferredFormat(available: seq<SurfaceFormat>): (r: Option<SurfaceFormat>)
    ensures r.Some? <==> PREFERRED_SURFACE_FORMAT in available
    ensures r.Some? ==> r.value == PREFERRED_SURFACE_FORMAT
  {
    if available == [] then None
    else if available[0].format == FORMAT_B8G8R8A8_SRGB
         && available[0].colorSpace == COLOR_SPACE_SRGB_NONLINEAR then Some(available[0])
    else FindPreferredFormat(available[1..])
  }

  /** `choose_swapchain_format`: the preferred pair when the surface offers
      it, otherwise the first format offered.  `None` is the panic of
      `first().unwrap()` on an empty list. */
  function ChooseSwapchainFormat(available: seq<SurfaceFormat>): (r: Option<SurfaceFormat>)
    ensures r.None? <==> available == []
    ensures r.Some? ==> r.value in available
    ensures PREFERRED_SURFACE_FORMAT in available ==> r == Some(PREFERRED_SURFACE_FORMAT)
    ensures PREFERRED_SURFACE_FORMAT !in available && available != [] ==> r == Some(available[0])
  {
    match FindPreferredFormat(available)
    case Some(f) => Some(f)
    case None => if available == [] then None else Some(available[0])
  }

  // ---------------------------------------------------------- present mode

  /** `choose_swapchain_present_mode`: MAILBOX when offered, otherwise FIFO
      (which every surface must support). */
  function ChooseSwapchainPresentMode(available: seq<PresentMode>): (r: PresentMode)
    ensures r == Mailbox <==> Mailbox in available
    ensures r != Mailbox ==> r == Fifo
  {
    if available == [] then Fifo
    else if available[0] == Mailbox then available[0]
    else ChooseSwapchainPresentMode(available[1..])
  }

  // ---------------------------------------------------------------- extent

  function Distance(a: int, b: int): nat {
    if a <= b then b - a else a - b
  }

  /** `r` is the value of [lo, hi] closest to `x`. */
  ghost predicate NearestInRange(r: int, x: int, lo: int, hi: int) {
    lo <= r <= hi && forall v :: lo <= v <= hi ==> Distance(r, x) <= Distance(v, x)
  }

  /** `num::clamp(x, lo, hi)`.  Its `lo <= hi` check is a debug assertion
      only; the body is the release behaviour. */
  function Clamp(x: U32, lo: U32, hi: U32): (r: U32)
    ensures lo <= hi ==> NearestInRange(r, x, lo, hi)
    ensures lo <= x <= hi ==> r == x
  {
    if x < lo then lo else if x > hi then hi else x
  }

  /** `choose_swapchain_extent`: the surface's current extent, unless its
      width is the special value 0xFFFFFFFF, in which case the window's size
      clamped into the surface's [min, max] extent, component by component. */
  function ChooseSwapchainExtent(caps: SurfaceCapabilities, window: Extent2D): (r: Extent2D)
    ensures caps.currentExtent.width != U32_MAX ==> r == caps.currentExtent
    ensures caps.currentExtent.width == U32_MAX
            && caps.minImageExtent.width <= caps.maxImageExtent.width
        ==> NearestInRange(r.width, window.width, caps.minImageExtent.width, caps.maxImageExtent.width)
    ensures caps.currentExtent.width == U32_MAX
            && caps.minImageExtent.height <= caps.maxImageExtent.height
        ==> NearestInRange(r.height, window.height, caps.minImageExtent.height, caps.maxImageExtent.height)
  {
    if caps.currentExtent.width != U32_MAX then caps.currentExtent
    else Extent2D(
      Clamp(window.width, caps.minImageExtent.width, caps.maxImageExtent.width),
      Clamp(window.height, caps.minImageExtent.height, caps.maxImageExtent.height))
  }

  // ----------------------------------------------------------- image count

  /** The image count `create_swapchain` asks for: one more than the
      surface's minimum, lowered to the maximum when there is one
      (a maximum of 0 means "no limit"). */
  function RequestedImageCount(caps: SurfaceCapabilities): (r: int)
    ensures r >= 1
    ensures caps.maxImageCount == 0 ==> r == caps.minImageCount + 1
    ensures caps.maxImageCount > 0 ==> r <= caps.maxImageCount
    ensures caps.maxImageCount == 0 || caps.maxImageCount >= caps.minImageCount ==> r >= caps.minImageCount
    ensures r == caps.minImageCount + 1 <==> caps.maxImageCount == 0 || caps.maxImageCount > caps.minImageCount
  {
    var count := caps.minImageCount + 1;
    if caps.maxImageCount > 0 then
      (if count <= caps.maxImageCount then count else caps.maxImageCount)
    else count
  }

  // ---------------------------------------------------------- sharing mode

  datatype SharingMode = Exclusive | Concurrent

  /** The sharing fields of `VkSwapchainCreateInfoKHR`. */
  datatype ImageSharing = ImageSharing(mode: SharingMode, queueFamilyIndexCount: nat, queueFamilyIndices: seq<nat>)

  /** The sharing choice of `create_swapchain`: CONCURRENT over both families
      when the graphics and present families differ, EXCLUSIVE otherwise.
      `None` is the panic of `unwrap()` when the families differ because one
      of them is missing. */
  function ChooseImageSharing(families: QueueFamilyIndices): (r: Option<ImageSharing>)
    ensures r.None? <==> families.graphicsFamily != families.presentFamily && !families.IsComplete()
    ensures r.Some? ==> r.value.queueFamilyIndexCount == |r.value.queueFamilyIndices|
    ensures r.Some? ==> (r.value.mode == Concurrent <==> families.graphicsFamily != families.presentFamily)
    ensures r.Some? && r.value.mode == Concurrent
        ==> r.value.queueFamilyIndices == [families.graphicsFamily.value, families.presentFamily.value]
    ensures r.Some? && r.value.mode == Exclusive ==> r.value.queueFamilyIndices == []
  {
    if families.graphicsFamily != families.presentFamily then
      if families.IsComplete() then
        Some(ImageSharing(Concurrent, 2, [families.graphicsFamily.value, families.presentFamily.value]))
      else None
    else Some(ImageSharing(Exclusive, 0, []))
  }

  // ------------------------------------------------------ swapchain set-up

  /** The settings `create_swapchain` puts into `VkSwapchainCreateInfoKHR`. */
  datatype SwapchainSettings = SwapchainSettings(
    surfaceFormat: SurfaceFormat,
    presentMode: PresentMode,
    extent: Extent2D,
    minImageCount: int,
    sharing: ImageSharing)

  /** The policy half of `create_swapchain`; `None` is one of its panics. */
  function SwapchainCreateSettings(
    caps: SurfaceCapabilities, formats: seq<SurfaceFormat>, presentModes: seq<PresentMode>,
    window: Extent2D, families: QueueFamilyIndices): (r: Option<SwapchainSettings>)
    ensures r.Some? <==> formats != [] && ChooseImageSharing(families).Some?
    ensures r.Some? ==> r.value.surfaceFormat in formats
    ensures r.Some? ==> (r.value.presentMode == Mailbox <==> Mailbox in presentModes)
    ensures r.Some? ==> r.value.minImageCount >= 1
    ensures r.Some? && caps.maxImageCount > 0 ==> r.value.minImageCount <= caps.maxImageCount
    ensures r.Some? && caps.currentExtent.width != U32_MAX ==> r.value.extent == caps.currentExtent
  {
    match ChooseSwapchainFormat(formats)
    case None => None
    case Some(format) =>
      match ChooseImageSharing(families)
      case None => None
      case Some(sharing) =>
        Some(SwapchainSettings(
          format,
          ChooseSwapchainPresentMode(presentModes),
          ChooseSwapchainExtent(caps, window),
          RequestedImageCount(caps),
          sharing))
  }

  // ----------------------------------------------------------- memory type

  /** Bit `i` of a `memoryTypeBits` mask is set. */
  predicate HasBit(mask: bv32, i: nat)
    requires i < 32
  {
    mask & (1 as bv32 << i) != 0
  }

  /** Every flag of `required` is among `flags`. */
  predicate ContainsFlags(flags: bv32, required: bv32) {
    flags & required == required
  }

  /** Memory type `i` is allowed by the filter and has the required flags. */
  predicate SuitableMemoryType(typeFilter: bv32, required: bv32, types: seq<MemoryType>, i: nat)
    requires i < |types| == MAX_MEMORY_TYPES
  {
    HasBit(typeFilter, i) && ContainsFlags(types[i].propertyFlags, required)
  }

  /** The loop of `find_memory_type` from index `i` on. */
  function FindMemoryTypeFrom(typeFilter: bv32, required: bv32, types: seq<MemoryType>, i: nat): (r: Option<nat>)
    requires |types| == MAX_MEMORY_TYPES && i <= |types|
    decreases |types| - i
    ensures r.Some? ==> i <= r.value < |types| && SuitableMemoryType(typeFilter, required, types, r.value)
    ensures r.Some? ==> forall j :: i <= j < r.value ==> !SuitableMemoryType(typeFilter, required, types, j)
    ensures r.None? ==> forall j :: i <= j < |types| ==> !SuitableMemoryType(typeFilter, required, types, j)
  {
    if i == |types| then None
    else if HasBit(typeFilter, i) && ContainsFlags(types[i].propertyFlags, required) then Some(i)
    else FindMemoryTypeFrom(typeFilter, required, types, i + 1)
  }

  /** `find_memory_type`: the smallest index allowed by the buffer's
      `memoryTypeBits` whose flags include the required ones; `None` is the
      panic "Failed to find suitable memory type!". */
  function FindMemoryType(typeFilter: bv32, required: bv32, types: seq<MemoryType>): (r: Option<nat>)
    requires |types| == MAX_MEMORY_TYPES
    ensures r.Some? ==> r.value < |types| && SuitableMemoryType(typeFilter, required, types, r.value)
    ensures r.Some? ==> forall j :: 0 <= j < r.value ==> !SuitableMemoryType(typeFilter, required, types, j)
    ensures r.None? <==> forall j :: 0 <= j < |types| ==> !SuitableMemoryType(typeFilter, required, types, j)
  {
    FindMemoryTypeFrom(typeFilter, required, types, 0)
  }

  /** A filter with no bit set admits no memory type, whatever the flags:
      `find_memory_type` then always panics. */
  lemma EmptyFilterFindsNothing(required: bv32, types: seq<MemoryType>)
    requires |types| == MAX_MEMORY_TYPES
    ensures FindMemoryType(0, required, types) == None
  {
    forall j | 0 <= j < |types| ensures !SuitableMemoryType(0, required, types, j) {
      assert (0 as bv32) & (1 as bv32 << j) == 0;
    }
  }
}
