/** The Vulkan values the renderer's selection policies work on: surface
    formats, present modes, extents, surface capabilities, queue families,
    memory types and what a physical device reports about itself.  Enum values
    carry the numeric codes the Vulkan headers give them. */
module VkTypes {
  import opened Wrappers

  /** Largest value of a Vulkan `uint32_t`. */
  const U32_MAX: int := 0xFFFF_FFFF

  type U32 = x: int | 0 <= x <= U32_MAX

  /** `VK_FORMAT_B8G8R8A8_SRGB` */
  const FORMAT_B8G8R8A8_SRGB: int := 50
  /** `VK_COLOR_SPACE_SRGB_NONLINEAR_KHR` */
  const COLOR_SPACE_SRGB_NONLINEAR: int := 0

  /** `VkSurfaceFormatKHR`: a (format, colour space) pair. */
  datatype SurfaceFormat = SurfaceFormat(format: int, colorSpace: int)

  /** The pair the renderer prefers for its swapchain images. */
  const PREFERRED_SURFACE_FORMAT: SurfaceFormat :=
    SurfaceFormat(FORMAT_B8G8R8A8_SRGB, COLOR_SPACE_SRGB_NONLINEAR)

  /** `VkPresentModeKHR`; `OtherPresentMode` stands for extension modes. */
  datatype PresentMode = Immediate | Mailbox | Fifo | FifoRelaxed | OtherPresentMode(code: int)

  /** `VkExtent2D` */
  datatype Extent2D = Extent2D(width: U32, height: U32)

  /** The part of `VkSurfaceCapabilitiesKHR` the swapchain set-up reads. */
  datatype SurfaceCapabilities = SurfaceCapabilities(
    minImageCount: U32,
    maxImageCount: U32,
    currentExtent: Extent2D,
    minImageExtent: Extent2D,
    maxImageExtent: Extent2D)

  /** One entry of `vkGetPhysicalDeviceQueueFamilyProperties`, together with
      the answer of `vkGetPhysicalDeviceSurfaceSupportKHR` for its index. */
  datatype QueueFamilyProperties = QueueFamilyProperties(
    queueCount: U32,
    supportsGraphics: bool,
    supportsPresent: bool)

  /** `QueueFamilyIndices`: the graphics and present family found so far. */
  datatype QueueFamilyIndices = QueueFamilyIndices(graphicsFamily: Option<nat>, presentFamily: Option<nat>)
  {
    predicate IsComplete() {
      graphicsFamily.Some? && presentFamily.Some?
    }
  }

  /** `VK_MAX_MEMORY_TYPES`: `VkPhysicalDeviceMemoryProperties.memoryTypes`
      is a fixed array of this many entries. */
  const MAX_MEMORY_TYPES: nat := 32

  /** `VkMemoryType`; the property flags are a 32-bit mask. */
  datatype MemoryType = MemoryType(propertyFlags: bv32, heapIndex: nat)

  /** `VK_MEMORY_PROPERTY_DEVICE_LOCAL_BIT` */
  const MEMORY_DEVICE_LOCAL: bv32 := 0x1
  /** `VK_MEMORY_PROPERTY_HOST_VISIBLE_BIT` */
  const MEMORY_HOST_VISIBLE: bv32 := 0x2
  /** `VK_MEMORY_PROPERTY_HOST_COHERENT_BIT` */
  const MEMORY_HOST_COHERENT: bv32 := 0x4

  /** What the device-selection code asks of one physical device. */
  datatype PhysicalDevice = PhysicalDevice(
    queueFamilies: seq<QueueFamilyProperties>,
    extensionNames: seq<string>,
    surfaceFormats: seq<SurfaceFormat>,
    presentModes: seq<PresentMode>,
    samplerAnisotropy: bool)
}
