/** Physical-device selection in `share.rs`: the queue-family scan, the
    device-extension check, the suitability test and the first-fit pick. */
module DeviceSelection {
  import opened Wrappers
  import opened VkTypes

  /** A family that can take graphics work. */
  predicate CanGraphics(f: QueueFamilyProperties) {
    f.queueCount > 0 && f.supportsGraphics
  }

  /** A family that can present to the window's surface. */
  predicate CanPresent(f: QueueFamilyProperties) {
    f.queueCount > 0 && f.supportsPresent
  }

  /** Some family among the first `n` can take graphics work. */
  predicate GraphicsAmong(families: seq<QueueFamilyProperties>, n: nat)
    requires n <= |families|
  {
    exists i :: 0 <= i < n && CanGraphics(families[i])
  }

  /** Some family among the first `n` can present. */
  predicate PresentAmong(families: seq<QueueFamilyProperties>, n: nat)
    requires n <= |families|
  {
    exists i :: 0 <= i < n && CanPresent(families[i])
  }

  function Max(a: nat, b: nat): nat {
    if a < b then b else a
  }

  /** How many families the scan looked at before returning `r`: up to and
      including the index where both were found, or all of them. */
  function ScannedCount(families: seq<QueueFamilyProperties>, r: QueueFamilyIndices): nat {
    if r.IsComplete() then Max(r.graphicsFamily.value, r.presentFamily.value) + 1 else |families|
  }

  /** `find_queue_family`: walks the families in order, recording in each
      slot the latest family that qualifies for it, and stops as soon as
      both slots are filled. */
  method FindQueueFamily(families: seq<QueueFamilyProperties>) returns (r: QueueFamilyIndices)
    // what is recorded qualifies
    ensures r.graphicsFamily.Some? ==> r.graphicsFamily.value < |families| && CanGraphics(families[r.graphicsFamily.value])
    ensures r.presentFamily.Some? ==> r.presentFamily.value < |families| && CanPresent(families[r.presentFamily.value])
    // a slot stays empty only when no family qualifies for it
    ensures r.graphicsFamily.None? <==> !GraphicsAmong(families, |families|)
    ensures r.presentFamily.None? <==> !PresentAmong(families, |families|)
    // the scan stops at the first index where both kinds have been seen ...
    ensures ScannedCount(families, r) <= |families|
    ensures r.IsComplete() ==>
      !(GraphicsAmong(families, ScannedCount(families, r) - 1) && PresentAmong(families, ScannedCount(families, r) - 1))
    // ... and what it records is the latest qualifying index it looked at
    ensures r.graphicsFamily.Some? ==>
      forall i :: r.graphicsFamily.value < i < ScannedCount(families, r) ==> !CanGraphics(families[i])
    ensures r.presentFamily.Some? ==>
      forall i :: r.presentFamily.value < i < ScannedCount(families, r) ==> !CanPresent(families[i])
  {
    r := QueueFamilyIndices(None, None);
    var index := 0;
    while index < |families|
      invariant 0 <= index <= |families|
      invariant !r.IsComplete()
      invariant r.graphicsFamily.Some? ==> r.graphicsFamily.value < index && CanGraphics(families[r.graphicsFamily.value])
      invariant r.presentFamily.Some? ==> r.presentFamily.value < index && CanPresent(families[r.presentFamily.value])
      invariant r.graphicsFamily.None? <==> !GraphicsAmong(families, index)
      invariant r.presentFamily.None? <==> !PresentAmong(families, index)
      invariant r.graphicsFamily.Some? ==> forall i :: r.graphicsFamily.value < i < index ==> !CanGraphics(families[i])
      invariant r.presentFamily.Some? ==> forall i :: r.presentFamily.value < i < index ==> !CanPresent(families[i])
    {
      ghost var before := r;
      var family := families[index];
      if family.queueCount > 0 && family.supportsGraphics {
        r := r.(graphicsFamily := Some(index));
      }
      if family.queueCount > 0 && family.supportsPresent {
        r := r.(presentFamily := Some(index));
      }
      if r.IsComplete() {
        assert Max(r.graphicsFamily.value, r.presentFamily.value) == index;
        assert !(GraphicsAmong(families, index) && PresentAmong(families, index));
        break;
      }
      index := index + 1;
    }
  }

  /** Every required extension name is among the available ones. */
  predicate ExtensionsAvailable(required: seq<string>, available: seq<string>) {
    forall name :: name in required ==> name in available
  }

  /** `check_device_extension_support`: puts the required names in a set,
      removes every available name from it, and reports whether the set
      ended up empty. */
  method CheckDeviceExtensionSupport(available: seq<string>, required: seq<string>) returns (supported: bool)
    ensures supported <==> ExtensionsAvailable(required, available)
  {
    var remaining: set<string> := {};
    for k := 0 to |required|
      invariant remaining == set name | name in required[..k]
    {
      remaining := remaining + {required[k]};
      assert required[..k + 1] == required[..k] + [required[k]];
    }
    assert required[..|required|] == required;
    for k := 0 to |available|
      invariant remaining == (set name | name in required) - (set name | name in available[..k])
    {
      remaining := remaining - {available[k]};
      assert available[..k + 1] == available[..k] + [available[k]];
    }
    assert available[..|available|] == available;
    supported := remaining == {};
    if !supported {
      var missing :| missing in remaining;
      assert missing in required && missing !in available;
    } else {
      forall name | name in required ensures name in available {
        assert name !in remaining;
      }
    }
  }

  /** `is_physical_device_suitable`, as a property of what the device reports:
      complete queue families, the required extensions, at least one surface
      format and present mode, and anisotropic sampling. */
  predicate Suitable(device: PhysicalDevice, requiredExtensions: seq<string>) {
    GraphicsAmong(device.queueFamilies, |device.queueFamilies|)
    && PresentAmong(device.queueFamilies, |device.queueFamilies|)
    && ExtensionsAvailable(requiredExtensions, device.extensionNames)
    && device.surfaceFormats != []
    && device.presentModes != []
    && device.samplerAnisotropy
  }

  /** `is_physical_device_suitable`: the swapchain support query is only
      consulted when the extensions are supported. */
  method IsPhysicalDeviceSuitable(device: PhysicalDevice, requiredExtensions: seq<string>) returns (suitable: bool)
    ensures suitable <==> Suitable(device, requiredExtensions)
  {
    var indices := FindQueueFamily(device.queueFamilies);
    var isQueueFamilySupported := indices.IsComplete();
    var isDeviceExtensionSupported := CheckDeviceExtensionSupport(device.extensionNames, requiredExtensions);
    var isSwapchainSupported :=
      if isDeviceExtensionSupported then device.surfaceFormats != [] && device.presentModes != [] else false;
    var isSupportSamplerAnisotropy := device.samplerAnisotropy;
    suitable := isQueueFamilySupported && isDeviceExtensionSupported && isSwapchainSupported
      && isSupportSamplerAnisotropy;
  }

  /** `pick_physical_device`: the first suitable device in enumeration order;
      `None` is the panic "Failed to find a suitable GPU!". */
  method PickPhysicalDevice(devices: seq<PhysicalDevice>, requiredExtensions: seq<string>) returns (r: Option<nat>)
    ensures r.Some? ==> r.value < |devices| && Suitable(devices[r.value], requiredExtensions)
    ensures r.Some? ==> forall j :: 0 <= j < r.value ==> !Suitable(devices[j], requiredExtensions)
    ensures r.None? <==> forall j :: 0 <= j < |devices| ==> !Suitable(devices[j], requiredExtensions)
  {
    var i := 0;
    while i < |devices|
      invariant 0 <= i <= |devices|
      invariant forall j :: 0 <= j < i ==> !Suitable(devices[j], requiredExtensions)
    {
      var suitable := IsPhysicalDeviceSuitable(devices[i], requiredExtensions);
      if suitable {
        return Some(i);
      }
      i := i + 1;
    }
    return None;
  }
}
