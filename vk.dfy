/** The part of the Vulkan API surface the layer touches: fixed-width
    integers, result codes, structure types, dispatchable handles and
    function pointers. Handles and pointers are opaque tokens; their
    binary representation is not modelled. */
module Vk {

  newtype int32 = x: int | -0x8000_0000 <= x < 0x8000_0000
  newtype uint32 = x: int | 0 <= x < 0x1_0000_0000

  datatype Option<+T> = None | Some(value: T)

  /** `vk::Result`, a transparent wrapper around a signed 32-bit code. */
  datatype VkResult = VkResult(raw: int32)

  const SUCCESS := VkResult(0)
  const ERROR_INITIALIZATION_FAILED := VkResult(-3)

  /** `vk::StructureType`; the two values are those of the Vulkan headers. */
  datatype StructureType = StructureType(raw: int32)

  const LOADER_INSTANCE_CREATE_INFO := StructureType(47)
  const LOADER_DEVICE_CREATE_INFO := StructureType(48)

  datatype VkInstance = VkInstance(handle: nat)
  datatype VkPhysicalDevice = VkPhysicalDevice(handle: nat)
  datatype VkDevice = VkDevice(handle: nat)

  /** An untyped address (`*const c_void`, `*mut u32`, ...) passed through unchanged. */
  type Ptr = nat

  /** The functions this layer exports, by their symbol. */
  datatype LayerEntry =
    | DummyGetInstanceProcAddr
    | DummyCreateInstance
    | DummyDestroyInstance
    | DummyGetDeviceProcAddr
    | DummyCreateDevice
    | DummyDestroyDevice
    | DummyGetPhysicalDeviceProcAddr
    | DispatchNextGetInstanceProcAddr
    | DispatchNextGetDeviceProcAddr

  /** A function pointer: one of the layer's own functions, or one supplied
      by the loader, the next layer or the driver. */
  datatype Pfn = LayerFn(entry: LayerEntry) | ForeignFn(id: nat)
}
