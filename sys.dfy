/** The loader/layer interface types of src/sys.rs: the tagged 32-bit
    newtypes, the version-negotiation record, the link records, the
    loader create-info records with their payload unions, and the
    pre-instance call chains with their `call_down` forwarders.

    A Rust `#[repr(C)] union` is read here as a tagged variant. The type
    does not tie the variant to the record's `function` tag: a record
    tagged `LAYER_LINK_INFO` may carry any variant, and the layer's entry
    points require the link variant of the record they find. A `p_next`
    pointer between records of a chain is not a field: a chain is a
    sequence, and the record after position i is the one at i + 1. */
module Sys {
  import opened Vk

  /** Tag of the version-negotiation record. */
  datatype NegotiateLayerStructType = NegotiateLayerStructType(raw: int32)
  {
    static const UNINTIALIZED := NegotiateLayerStructType(0)
    static const INTERFACE_STRUCT := NegotiateLayerStructType(1)

    static function FromRaw(x: int32): NegotiateLayerStructType
    {
      NegotiateLayerStructType(x)
    }

    function AsRaw(): (x: int32)
      ensures FromRaw(x) == this
    {
      raw
    }
  }

  /** The record the loader hands to `vkNegotiateLoaderLayerInterfaceVersion`;
      the layer writes its fields in place. */
  class NegotiateLayerInterface {
    var sType: NegotiateLayerStructType
    var pNext: Ptr
    var loaderLayerInterfaceVersion: uint32
    var pfnGetInstanceProcAddr: Pfn
    var pfnGetDeviceProcAddr: Pfn
    var pfnGetPhysicalDeviceProcAddr: Pfn

    constructor (sType: NegotiateLayerStructType, pNext: Ptr, version: uint32,
                 gipa: Pfn, gdpa: Pfn, gphypa: Pfn)
      ensures this.sType == sType && this.pNext == pNext
      ensures loaderLayerInterfaceVersion == version
      ensures pfnGetInstanceProcAddr == gipa && pfnGetDeviceProcAddr == gdpa
      ensures pfnGetPhysicalDeviceProcAddr == gphypa
    {
      this.sType := sType;
      this.pNext := pNext;
      loaderLayerInterfaceVersion := version;
      pfnGetInstanceProcAddr := gipa;
      pfnGetDeviceProcAddr := gdpa;
      pfnGetPhysicalDeviceProcAddr := gphypa;
    }
  }

  /** The `function` sub-tag of a loader create-info record. */
  datatype LayerFunction = LayerFunction(raw: int32)
  {
    static const LAYER_LINK_INFO := LayerFunction(0)
    static const LOADER_DATA_CALLBACK := LayerFunction(1)
    static const LOADER_LAYER_CREATE_DEVICE_CALLBACK := LayerFunction(2)
    static const LOADER_FEATURES := LayerFunction(3)

    static function FromRaw(x: int32): LayerFunction
    {
      LayerFunction(x)
    }

    function AsRaw(): (x: int32)
      ensures FromRaw(x) == this
    {
      raw
    }
  }

  /** Converting a raw value to a tag and back gives the value back, for
      all three tagged newtypes. */
  lemma RawRoundTrips(x: int32)
    ensures LayerFunction.FromRaw(x).AsRaw() == x
    ensures NegotiateLayerStructType.FromRaw(x).AsRaw() == x
    ensures ChainType.FromRaw(x).AsRaw() == x
  {
  }

  /** The four `LayerFunction` tags have the values 0 to 3, so no two are equal. */
  lemma LayerFunctionConstants()
    ensures LayerFunction.LAYER_LINK_INFO.AsRaw() == 0
    ensures LayerFunction.LOADER_DATA_CALLBACK.AsRaw() == 1
    ensures LayerFunction.LOADER_LAYER_CREATE_DEVICE_CALLBACK.AsRaw() == 2
    ensures LayerFunction.LOADER_FEATURES.AsRaw() == 3
    ensures LayerFunction.LAYER_LINK_INFO != LayerFunction.LOADER_DATA_CALLBACK
    ensures LayerFunction.LAYER_LINK_INFO != LayerFunction.LOADER_LAYER_CREATE_DEVICE_CALLBACK
    ensures LayerFunction.LAYER_LINK_INFO != LayerFunction.LOADER_FEATURES
    ensures LayerFunction.LOADER_DATA_CALLBACK != LayerFunction.LOADER_LAYER_CREATE_DEVICE_CALLBACK
    ensures LayerFunction.LOADER_DATA_CALLBACK != LayerFunction.LOADER_FEATURES
    ensures LayerFunction.LOADER_LAYER_CREATE_DEVICE_CALLBACK != LayerFunction.LOADER_FEATURES
  {
  }

  /** One element of the `p_layer_info` list of an instance create-info:
      the next layer's instance-level and physical-device resolvers. */
  datatype LayerInstanceLink = LayerInstanceLink(
    pfnNextGetInstanceProcAddr: Pfn,
    pfnNextGetPhysicalDeviceProcAddr: Pfn)

  datatype LayerDeviceInfo = LayerDeviceInfo(pDeviceInfo: Ptr, pfnNextGetInstanceProcAddr: Pfn)

  /** The payload of an instance create-info record. `p_layer_info` is the
      rest of the link list; the empty sequence is the null pointer. */
  datatype LayerInstanceCreateInfoUnion =
    | InstanceLayerInfo(pLayerInfo: seq<LayerInstanceLink>)
    | PfnSetInstanceLoaderData(pfnSetInstanceLoaderData: Pfn)
    | InstanceLayerDevice(pfnLayerCreateDevice: Pfn, pfnLayerDestroyDevice: Pfn)
    | LoaderFeatures(loaderFeatures: uint32)

  /** One element of the `p_layer_info` list of a device create-info. */
  datatype LayerDeviceLink = LayerDeviceLink(
    pfnNextGetInstanceProcAddr: Pfn,
    pfnNextGetDeviceProcAddr: Pfn)

  datatype LayerDeviceCreateInfoUnion =
    | DeviceLayerInfo(pLayerInfo: seq<LayerDeviceLink>)
    | PfnSetDeviceLoaderData(pfnSetDeviceLoaderData: Pfn)

  /** A record of a create-info extension chain, read through the loader
      create-info layout: its structure type, its `function` sub-tag and
      its payload. */
  datatype LayerCreateInfo<U> = LayerCreateInfo(sType: StructureType, layerFunction: LayerFunction, u: U)

  type LayerInstanceCreateInfo = LayerCreateInfo<LayerInstanceCreateInfoUnion>
  type LayerDeviceCreateInfo = LayerCreateInfo<LayerDeviceCreateInfoUnion>

  /** `LayerInstanceCreateInfo::default()`. */
  function DefaultLayerInstanceCreateInfo(): LayerInstanceCreateInfo
  {
    LayerCreateInfo(LOADER_INSTANCE_CREATE_INFO, LayerFunction.LAYER_LINK_INFO, InstanceLayerInfo([]))
  }

  /** `LayerDeviceCreateInfo::default()`. */
  function DefaultLayerDeviceCreateInfo(): LayerDeviceCreateInfo
  {
    LayerCreateInfo(LOADER_DEVICE_CREATE_INFO, LayerFunction.LAYER_LINK_INFO, DeviceLayerInfo([]))
  }

  /** Tag of a pre-instance call chain. */
  datatype ChainType = ChainType(raw: int32)
  {
    static const UNKNOWN := ChainType(0)
    static const ENUMERATE_INSTANCE_EXTENSION_PROPERTIES := ChainType(1)
    static const ENUMERATE_INSTANCE_LAYER_PROPERTIES := ChainType(2)
    static const ENUMERATE_INSTANCE_VERSION := ChainType(3)

    static function FromRaw(x: int32): ChainType
    {
      ChainType(x)
    }

    function AsRaw(): (x: int32)
      ensures FromRaw(x) == this
    {
      raw
    }
  }

  /** The chain-type tags have the values 0 to 3, and the two negotiation
      tags the values 0 and 1. */
  lemma ChainTypeAndStructTypeConstants()
    ensures ChainType.UNKNOWN.AsRaw() == 0
    ensures ChainType.ENUMERATE_INSTANCE_EXTENSION_PROPERTIES.AsRaw() == 1
    ensures ChainType.ENUMERATE_INSTANCE_LAYER_PROPERTIES.AsRaw() == 2
    ensures ChainType.ENUMERATE_INSTANCE_VERSION.AsRaw() == 3
    ensures NegotiateLayerStructType.UNINTIALIZED.AsRaw() == 0
    ensures NegotiateLayerStructType.INTERFACE_STRUCT.AsRaw() == 1
  {
  }

  datatype ChainHeader = ChainHeader(ty: ChainType, version: uint32, size: uint32)

  /** A pre-instance call chain link (the shape shared by the three
      `Enumerate*Chain` records): the next layer's implementation and the
      link that layer is to receive; `None` is the null pointer. */
  datatype PreInstanceChain = PreInstanceChain(
    header: ChainHeader,
    pfnNextLayer: Pfn,
    pNextLink: Option<PreInstanceChain>)

  /** The arguments a `call_down` hands to `pfn_next_layer`. */
  datatype DownCall =
    | EnumerateInstanceExtensionPropertiesCall(
        pChain: Option<PreInstanceChain>, pLayerName: Ptr, pPropertyCount: Ptr, pProperties: Ptr)
    | EnumerateInstanceLayerPropertiesCall(
        pChain: Option<PreInstanceChain>, pPropertyCount: Ptr, pProperties: Ptr)
    | EnumerateInstanceVersionCall(pChain: Option<PreInstanceChain>, pApiVersion: Ptr)

  /** What calling a function pointer with some arguments returns; it is
      outside the layer, so the model takes it as a parameter. */
  type Callee = (Pfn, DownCall) -> VkResult

  /** `EnumerateInstanceExtensionPropertiesChain::call_down`; what it hands
      on is stated by `CallDownHandsOnNextLink`. */
  function ExtensionPropertiesCallDown(
    self: PreInstanceChain, pLayerName: Ptr, pPropertyCount: Ptr, pProperties: Ptr, callee: Callee): (r: VkResult)
  {
    callee(self.pfnNextLayer,
      EnumerateInstanceExtensionPropertiesCall(self.pNextLink, pLayerName, pPropertyCount, pProperties))
  }

  /** `EnumerateInstanceLayerPropertiesChain::call_down`. */
  function LayerPropertiesCallDown(
    self: PreInstanceChain, pPropertyCount: Ptr, pProperties: Ptr, callee: Callee): (r: VkResult)
  {
    callee(self.pfnNextLayer, EnumerateInstanceLayerPropertiesCall(self.pNextLink, pPropertyCount, pProperties))
  }

  /** `EnumerateInstanceVersionChain::call_down`. */
  function VersionCallDown(self: PreInstanceChain, pApiVersion: Ptr, callee: Callee): (r: VkResult)
  {
    callee(self.pfnNextLayer, EnumerateInstanceVersionCall(self.pNextLink, pApiVersion))
  }

  /** The link that the k-th layer down the chain receives (the head is the 0th). */
  function LinkAt(chain: Option<PreInstanceChain>, k: nat): Option<PreInstanceChain>
  {
    if k == 0 then chain
    else match chain
      case None => None
      case Some(link) => LinkAt(link.pNextLink, k - 1)
  }

  /** Following the chain one more step from the k-th link gives the
      (k + 1)-th: a layer that calls down from the link it received hands
      the next layer exactly the link the loader meant for it. */
  lemma {:induction false} LinkAtStep(chain: Option<PreInstanceChain>, k: nat)
    requires LinkAt(chain, k).Some?
    ensures LinkAt(chain, k + 1) == LinkAt(chain, k).value.pNextLink
  {
    if k > 0 {
      LinkAtStep(chain.value.pNextLink, k - 1);
    }
  }

  /** Each `call_down` made from the k-th link calls that link's next-layer
      function with the (k + 1)-th link as the chain argument. */
  lemma CallDownHandsOnNextLink(chain: Option<PreInstanceChain>, k: nat, a: Ptr, b: Ptr, c: Ptr, callee: Callee)
    requires LinkAt(chain, k).Some?
    ensures var self := LinkAt(chain, k).value;
      && ExtensionPropertiesCallDown(self, a, b, c, callee)
         == callee(self.pfnNextLayer, EnumerateInstanceExtensionPropertiesCall(LinkAt(chain, k + 1), a, b, c))
      && LayerPropertiesCallDown(self, b, c, callee)
         == callee(self.pfnNextLayer, EnumerateInstanceLayerPropertiesCall(LinkAt(chain, k + 1), b, c))
      && VersionCallDown(self, a, callee)
         == callee(self.pfnNextLayer, EnumerateInstanceVersionCall(LinkAt(chain, k + 1), a))
  {
    LinkAtStep(chain, k);
  }
}
