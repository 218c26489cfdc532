/** The dummy layer of examples/layer_dummy.rs: the version-negotiation
    entry point, the five proc-address resolvers, and create/destroy of
    instances and devices with the process-wide set-once cells and maps
    they maintain.

    The resolvers are functions of the state they read (a cell or a map)
    and of `next`, the behaviour of the downstream resolvers they forward
    to. The mutable process state is the class `Layer`; the driver is its
    parameters: the result of each forwarded create call, the handle it
    creates, and a fixed enumeration of each instance's physical devices.
    Forwarded calls are recorded in a ghost trace. */
module LayerDummy {
  import opened Vk
  import opened Sys
  import opened Utils

  /** A downstream resolver called through a pointer: it maps the pointer,
      a handle and a command name to the function pointer it returns
      (`None` is the null `PFN_vkVoidFunction`). */
  type InstanceResolver = (Pfn, VkInstance, string) -> Option<Pfn>
  type DeviceResolver = (Pfn, VkDevice, string) -> Option<Pfn>

  /** The layers and driver below never hand out this layer's own functions. */
  ghost predicate ForeignOnly<H(!new)>(next: (Pfn, H, string) -> Option<Pfn>)
  {
    forall p, h, name :: next(p, h, name).Some? ==> next(p, h, name).value.ForeignFn?
  }

  /** The Vulkan command each exported function implements. */
  function CommandName(e: LayerEntry): string
  {
    match e
    case DummyGetInstanceProcAddr => "vkGetInstanceProcAddr"
    case DummyCreateInstance => "vkCreateInstance"
    case DummyDestroyInstance => "vkDestroyInstance"
    case DummyGetDeviceProcAddr => "vkGetDeviceProcAddr"
    case DummyCreateDevice => "vkCreateDevice"
    case DummyDestroyDevice => "vkDestroyDevice"
    case DummyGetPhysicalDeviceProcAddr => "vk_layerGetPhysicalDeviceProcAddr"
    case DispatchNextGetInstanceProcAddr => "vkGetInstanceProcAddr"
    case DispatchNextGetDeviceProcAddr => "vkGetDeviceProcAddr"
  }

  const INSTANCE_INTERCEPTS: set<LayerEntry> := {
    DummyGetInstanceProcAddr, DummyCreateInstance, DummyDestroyInstance, DummyGetDeviceProcAddr,
    DummyCreateDevice, DummyDestroyDevice, DummyGetPhysicalDeviceProcAddr }
  const INSTANCE_COMMANDS: set<string> := {
    "vkGetInstanceProcAddr", "vkCreateInstance", "vkDestroyInstance", "vkGetDeviceProcAddr",
    "vkCreateDevice", "vkDestroyDevice", "vk_layerGetPhysicalDeviceProcAddr" }

  const DEVICE_INTERCEPTS: set<LayerEntry> := { DummyGetDeviceProcAddr, DummyCreateDevice, DummyDestroyDevice }
  const DEVICE_COMMANDS: set<string> := { "vkGetDeviceProcAddr", "vkCreateDevice", "vkDestroyDevice" }

  /** The global enumeration commands the downstream-facing resolver refuses. */
  const SHIELDED_COMMANDS: set<string> := {
    "vkEnumerateInstanceExtensionProperties", "vkEnumerateInstanceLayerProperties", "vkEnumerateInstanceVersion" }

  /** The match table of `dummy_vkGetInstanceProcAddr`. */
  function InstanceIntercept(name: string): (e: Option<LayerEntry>)
    ensures e.Some? <==> name in INSTANCE_COMMANDS
    ensures e.Some? ==> e.value in INSTANCE_INTERCEPTS && CommandName(e.value) == name
  {
    if name == "vkGetInstanceProcAddr" then Some(DummyGetInstanceProcAddr)
    else if name == "vkCreateInstance" then Some(DummyCreateInstance)
    else if name == "vkDestroyInstance" then Some(DummyDestroyInstance)
    else if name == "vkGetDeviceProcAddr" then Some(DummyGetDeviceProcAddr)
    else if name == "vkCreateDevice" then Some(DummyCreateDevice)
    else if name == "vkDestroyDevice" then Some(DummyDestroyDevice)
    else if name == "vk_layerGetPhysicalDeviceProcAddr" then Some(DummyGetPhysicalDeviceProcAddr)
    else None
  }

  /** The match table of `dummy_vkGetDeviceProcAddr`. */
  function DeviceIntercept(name: string): (e: Option<LayerEntry>)
    ensures e.Some? <==> name in DEVICE_COMMANDS
    ensures e.Some? ==> e.value in DEVICE_INTERCEPTS && CommandName(e.value) == name
  {
    if name == "vkGetDeviceProcAddr" then Some(DummyGetDeviceProcAddr)
    else if name == "vkCreateDevice" then Some(DummyCreateDevice)
    else if name == "vkDestroyDevice" then Some(DummyDestroyDevice)
    else None
  }

  /** Every intercepted function is found under its own command name: the
      tables are the inverse of `CommandName` on the intercepted sets. */
  lemma InterceptTablesInvertCommandName(e: LayerEntry)
    ensures e in INSTANCE_INTERCEPTS ==> InstanceIntercept(CommandName(e)) == Some(e)
    ensures e in DEVICE_INTERCEPTS ==> DeviceIntercept(CommandName(e)) == Some(e)
    ensures e !in INSTANCE_INTERCEPTS ==> InstanceIntercept(CommandName(e)) != Some(e)
    ensures e !in DEVICE_INTERCEPTS ==> DeviceIntercept(CommandName(e)) != Some(e)
  {
  }

  /** `dummy_vkGetInstanceProcAddr`: the layer's own function for the seven
      intercepted names; any other name goes to the captured upstream
      resolver `gipa` with the same instance and name, or fails if none
      has been captured. */
  function ResolveInstanceProcAddr(gipa: Option<Pfn>, instance: VkInstance, name: string, next: InstanceResolver)
    : (r: Option<Pfn>)
    ensures name in INSTANCE_COMMANDS ==> r.Some? && r.value.LayerFn? && CommandName(r.value.entry) == name
                                          && r.value.entry in INSTANCE_INTERCEPTS
    ensures name !in INSTANCE_COMMANDS && gipa.Some? ==> r == next(gipa.value, instance, name)
    ensures gipa.None? ==> (r.Some? <==> name in INSTANCE_COMMANDS)
    ensures ForeignOnly(next) ==> (r.Some? && r.value.LayerFn? <==> name in INSTANCE_COMMANDS)
  {
    match InstanceIntercept(name)
    case Some(e) => Some(LayerFn(e))
    case None => if gipa.Some? then next(gipa.value, instance, name) else None
  }

  /** `dummy_vkGetDeviceProcAddr`: three intercepted names; any other name
      goes to the resolver registered for `device`, or fails for a device
      the layer has not registered. */
  function ResolveDeviceProcAddr(gdpaMap: map<VkDevice, Pfn>, device: VkDevice, name: string, next: DeviceResolver)
    : (r: Option<Pfn>)
    ensures name in DEVICE_COMMANDS ==> r.Some? && r.value.LayerFn? && CommandName(r.value.entry) == name
                                        && r.value.entry in DEVICE_INTERCEPTS
    ensures name !in DEVICE_COMMANDS && device in gdpaMap ==> r == next(gdpaMap[device], device, name)
    ensures device !in gdpaMap ==> (r.Some? <==> name in DEVICE_COMMANDS)
    ensures ForeignOnly(next) ==> (r.Some? && r.value.LayerFn? <==> name in DEVICE_COMMANDS)
  {
    match DeviceIntercept(name)
    case Some(e) => Some(LayerFn(e))
    case None => if device in gdpaMap then next(gdpaMap[device], device, name) else None
  }

  /** `dummy_vk_layerGetPhysicalDeviceProcAddr`: only `vkCreateDevice` is
      intercepted; anything else goes to the captured upstream
      physical-device resolver, or fails if none has been captured. */
  function ResolvePhysicalDeviceProcAddr(gphypa: Option<Pfn>, instance: VkInstance, name: string, next: InstanceResolver)
    : (r: Option<Pfn>)
    ensures name == "vkCreateDevice" ==> r == Some(LayerFn(DummyCreateDevice))
    ensures name != "vkCreateDevice" && gphypa.Some? ==> r == next(gphypa.value, instance, name)
    ensures gphypa.None? ==> (r.Some? <==> name == "vkCreateDevice")
    ensures ForeignOnly(next) ==> (r.Some? && r.value.LayerFn? <==> name == "vkCreateDevice")
  {
    if name == "vkCreateDevice" then Some(LayerFn(DummyCreateDevice))
    else if gphypa.Some? then next(gphypa.value, instance, name)
    else None
  }

  /** `dispatch_next_vkGetInstanceProcAddr`, the resolver the layer's own
      loaded tables are built from: it returns itself and
      `dispatch_next_vkGetDeviceProcAddr` under their names, null for the
      three global enumeration commands whatever `gipa` holds, and forwards
      everything else to `gipa`. */
  function ResolveNextInstanceProcAddr(gipa: Option<Pfn>, instance: VkInstance, name: string, next: InstanceResolver)
    : (r: Option<Pfn>)
    ensures name == "vkGetInstanceProcAddr" ==> r == Some(LayerFn(DispatchNextGetInstanceProcAddr))
    ensures name == "vkGetDeviceProcAddr" ==> r == Some(LayerFn(DispatchNextGetDeviceProcAddr))
    ensures name in SHIELDED_COMMANDS ==> r.None?
    ensures name !in SHIELDED_COMMANDS && name != "vkGetInstanceProcAddr" && name != "vkGetDeviceProcAddr"
            ==> r == (if gipa.Some? then next(gipa.value, instance, name) else None)
    ensures ForeignOnly(next) ==>
              (r.Some? && r.value.LayerFn? <==> name == "vkGetInstanceProcAddr" || name == "vkGetDeviceProcAddr")
  {
    if name == "vkGetInstanceProcAddr" then Some(LayerFn(DispatchNextGetInstanceProcAddr))
    else if name == "vkGetDeviceProcAddr" then Some(LayerFn(DispatchNextGetDeviceProcAddr))
    else if name == "vkEnumerateInstanceExtensionProperties" then None
    else if name == "vkEnumerateInstanceLayerProperties" then None
    else if name == "vkEnumerateInstanceVersion" then None
    else if gipa.Some? then next(gipa.value, instance, name)
    else None
  }

  /** `dispatch_next_vkGetDeviceProcAddr`: itself under its own name, and
      the device's registered resolver for everything else. */
  function ResolveNextDeviceProcAddr(gdpaMap: map<VkDevice, Pfn>, device: VkDevice, name: string, next: DeviceResolver)
    : (r: Option<Pfn>)
    ensures name == "vkGetDeviceProcAddr" ==> r == Some(LayerFn(DispatchNextGetDeviceProcAddr))
    ensures name != "vkGetDeviceProcAddr" ==>
              r == (if device in gdpaMap then next(gdpaMap[device], device, name) else None)
    ensures ForeignOnly(next) ==> (r.Some? && r.value.LayerFn? <==> name == "vkGetDeviceProcAddr")
  {
    if name == "vkGetDeviceProcAddr" then Some(LayerFn(DispatchNextGetDeviceProcAddr))
    else if device in gdpaMap then next(gdpaMap[device], device, name)
    else None
  }

  /** The shielded commands stay null through the downstream-facing
      resolver for every upstream state, and are not intercepted by the
      application-facing one, which forwards them like any other name. */
  lemma ShieldedCommandsAreNullDownstream(gipa: Option<Pfn>, instance: VkInstance, name: string, next: InstanceResolver)
    requires name in SHIELDED_COMMANDS
    ensures ResolveNextInstanceProcAddr(gipa, instance, name, next) == None
    ensures ResolveInstanceProcAddr(gipa, instance, name, next)
            == (if gipa.Some? then next(gipa.value, instance, name) else None)
  {
  }

  /** `vkNegotiateLoaderLayerInterfaceVersion`: whatever version the loader
      offers, agree on version 2 and hand back the three resolvers. */
  method NegotiateLoaderLayerInterfaceVersion(versionStruct: NegotiateLayerInterface) returns (r: VkResult)
    modifies versionStruct
    ensures r == SUCCESS
    ensures versionStruct.loaderLayerInterfaceVersion == 2
    ensures versionStruct.pfnGetInstanceProcAddr == LayerFn(DummyGetInstanceProcAddr)
    ensures versionStruct.pfnGetDeviceProcAddr == LayerFn(DummyGetDeviceProcAddr)
    ensures versionStruct.pfnGetPhysicalDeviceProcAddr == LayerFn(DummyGetPhysicalDeviceProcAddr)
    ensures versionStruct.sType == old(versionStruct.sType) && versionStruct.pNext == old(versionStruct.pNext)
  {
    versionStruct.loaderLayerInterfaceVersion := 2;
    versionStruct.pfnGetInstanceProcAddr := LayerFn(DummyGetInstanceProcAddr);
    versionStruct.pfnGetDeviceProcAddr := LayerFn(DummyGetDeviceProcAddr);
    versionStruct.pfnGetPhysicalDeviceProcAddr := LayerFn(DummyGetPhysicalDeviceProcAddr);
    r := SUCCESS;
  }

  /** The three pointers negotiation hands out are the ones the instance
      resolver returns for their own names, whatever the layer's state:
      the loader sees one consistent set of entry points. */
  lemma NegotiatedResolversResolveToThemselves(gipa: Option<Pfn>, instance: VkInstance, next: InstanceResolver)
    ensures ResolveInstanceProcAddr(gipa, instance, "vkGetInstanceProcAddr", next)
            == Some(LayerFn(DummyGetInstanceProcAddr))
    ensures ResolveInstanceProcAddr(gipa, instance, "vkGetDeviceProcAddr", next)
            == Some(LayerFn(DummyGetDeviceProcAddr))
    ensures ResolveInstanceProcAddr(gipa, instance, "vk_layerGetPhysicalDeviceProcAddr", next)
            == Some(LayerFn(DummyGetPhysicalDeviceProcAddr))
  {
  }

  /** `OnceCell::set` with its result ignored: the first value written stays. */
  function OnceSet<T>(cell: Option<T>, v: T): (r: Option<T>)
    ensures r.Some?
    ensures cell.Some? ==> r == cell
    ensures cell.None? ==> r == Some(v)
  {
    if cell.Some? then cell else Some(v)
  }

  /** A later set never changes a cell that already holds a value. */
  lemma OnceSetFirstWriteWins<T>(cell: Option<T>, v: T, w: T)
    ensures OnceSet(OnceSet(cell, v), w) == OnceSet(cell, v)
    ensures cell.None? ==> OnceSet(OnceSet(cell, v), w) == Some(v)
  {
  }

  /** The loaded instance-level table (`ash::Instance`); opaque but for its handle. */
  datatype AshInstance = AshInstance(handle: VkInstance)
  /** The loaded device-level table (`ash::Device`); opaque but for its handle. */
  datatype AshDevice = AshDevice(handle: VkDevice)

  datatype LayerInstance = LayerInstance(ashInstance: AshInstance)
  datatype LayerDevice = LayerDevice(instance: VkInstance, ashDevice: AshDevice)

  /** A call the layer makes into the layers and driver below it. Each load
      or forward records the value of the cell or map entry it depends on
      at the moment it happens. */
  datatype Event =
    | CreateInstanceCall(via: Pfn, gphypaSeen: Option<Pfn>)
    | LoadInstance(instance: VkInstance, gipaSeen: Option<Pfn>)
    | EnumeratePhysicalDevicesCall(instance: VkInstance)
    | DestroyInstanceCall(instance: VkInstance)
    | CreateDeviceCall(physicalDevice: VkPhysicalDevice, instance: VkInstance)
    | LoadDevice(device: VkDevice, gdpaSeen: Option<Pfn>)
    | DestroyDeviceCall(device: VkDevice)

  /** Pops this layer's link off a link-info record (`p_layer_info = p_next`). */
  function PopInstanceLink(info: LayerInstanceCreateInfo): LayerInstanceCreateInfo
    requires info.u.InstanceLayerInfo? && info.u.pLayerInfo != []
  {
    info.(u := InstanceLayerInfo(info.u.pLayerInfo[1..]))
  }

  function PopDeviceLink(info: LayerDeviceCreateInfo): LayerDeviceCreateInfo
    requires info.u.DeviceLayerInfo? && info.u.pLayerInfo != []
  {
    info.(u := DeviceLayerInfo(info.u.pLayerInfo[1..]))
  }

  function InstanceLinkPosition(chain: seq<LayerInstanceCreateInfo>): Option<nat>
  {
    FirstChainInfo(chain, LOADER_INSTANCE_CREATE_INFO, LayerFunction.LAYER_LINK_INFO)
  }

  function DeviceLinkPosition(chain: seq<LayerDeviceCreateInfo>): Option<nat>
  {
    FirstChainInfo(chain, LOADER_DEVICE_CREATE_INFO, LayerFunction.LAYER_LINK_INFO)
  }

  /** What the loader guarantees of an instance chain: the link-info record
      found, if there is one, carries the link variant of the union and
      points at a non-empty list of links. */
  predicate InstanceLinkReadable(chain: seq<LayerInstanceCreateInfo>)
  {
    match InstanceLinkPosition(chain)
    case None => true
    case Some(k) => chain[k].u.InstanceLayerInfo? && chain[k].u.pLayerInfo != []
  }

  /** The device counterpart of `InstanceLinkReadable`. */
  predicate DeviceLinkReadable(chain: seq<LayerDeviceCreateInfo>)
  {
    match DeviceLinkPosition(chain)
    case None => true
    case Some(k) => chain[k].u.DeviceLayerInfo? && chain[k].u.pLayerInfo != []
  }

  /** The process-wide state of the layer: the set-once cells `GIPA`,
      `GPHYPA` and `ENTRY` and the four registries. */
  class Layer {
    var gipa: Option<Pfn>
    var gphypa: Option<Pfn>
    /** `ENTRY`: the `get_instance_proc_addr` of the stored `ash::Entry`. */
    var entry: Option<Pfn>
    var instanceMap: map<VkInstance, LayerInstance>
    var phyToInstanceMap: map<VkPhysicalDevice, VkInstance>
    var gdpaMap: map<VkDevice, Pfn>
    var deviceMap: map<VkDevice, LayerDevice>
    /** The driver's answer to `enumerate_physical_devices` for each instance. */
    const physDevices: VkInstance -> seq<VkPhysicalDevice>
    ghost var trace: seq<Event>

    /** What create and destroy keep true. A physical device maps to a
        registered instance that enumerates it. Nothing says a device's
        instance is still registered: destroying an instance leaves its
        devices in place. */
    ghost predicate Valid()
      reads this
    {
      && (forall p :: p in phyToInstanceMap ==>
            phyToInstanceMap[p] in instanceMap && p in physDevices(phyToInstanceMap[p]))
      && (forall i :: i in instanceMap ==> instanceMap[i].ashInstance.handle == i)
      && (forall d :: d in deviceMap ==> deviceMap[d].ashDevice.handle == d)
      && deviceMap.Keys == gdpaMap.Keys
      && (instanceMap != map[] ==> gipa.Some? && gphypa.Some? && entry.Some?)
    }

    constructor (physDevices: VkInstance -> seq<VkPhysicalDevice>)
      ensures Valid()
      ensures this.physDevices == physDevices
      ensures gipa == None && gphypa == None && entry == None
      ensures instanceMap == map[] && phyToInstanceMap == map[] && gdpaMap == map[] && deviceMap == map[]
      ensures trace == []
    {
      this.physDevices := physDevices;
      gipa, gphypa, entry := None, None, None;
      instanceMap, phyToInstanceMap := map[], map[];
      gdpaMap, deviceMap := map[], map[];
      trace := [];
    }

    /** The loop of `dummy_vkCreateInstance` that maps each enumerated
        physical device to the new instance. */
    method MapPhysicalDevices(phyDevices: seq<VkPhysicalDevice>, instance: VkInstance)
      modifies this`phyToInstanceMap
      ensures phyToInstanceMap == old(phyToInstanceMap) + (map p | p in phyDevices :: instance)
    {
      for i := 0 to |phyDevices|
        invariant phyToInstanceMap == old(phyToInstanceMap) + (map p | p in phyDevices[..i] :: instance)
      {
        assert phyDevices[..i + 1] == phyDevices[..i] + [phyDevices[i]];
        phyToInstanceMap := phyToInstanceMap[phyDevices[i] := instance];
      }
      assert phyDevices[..|phyDevices|] == phyDevices;
    }

    /** The loop of `dummy_vkDestroyInstance` that removes the mapping of
        each enumerated physical device. */
    method UnmapPhysicalDevices(phyDevices: seq<VkPhysicalDevice>)
      modifies this`phyToInstanceMap
      ensures phyToInstanceMap == old(phyToInstanceMap) - (set p | p in phyDevices)
    {
      for i := 0 to |phyDevices|
        invariant phyToInstanceMap == old(phyToInstanceMap) - (set p | p in phyDevices[..i])
      {
        assert phyDevices[..i + 1] == phyDevices[..i] + [phyDevices[i]];
        phyToInstanceMap := phyToInstanceMap - {phyDevices[i]};
      }
      assert phyDevices[..|phyDevices|] == phyDevices;
    }

    /** `dummy_vkCreateInstance`. `driverResult` is what the forwarded
        `vkCreateInstance` returns and `created` the handle it writes. */
    method CreateInstance(chain: array<LayerInstanceCreateInfo>, driverResult: VkResult, created: VkInstance)
      returns (res: VkResult)
      requires Valid()
      requires InstanceLinkReadable(chain[..])
      modifies this, chain
      ensures Valid()
      ensures InstanceLinkPosition(old(chain[..])).None? ==>
                res == ERROR_INITIALIZATION_FAILED && unchanged(this) && chain[..] == old(chain[..])
      ensures InstanceLinkPosition(old(chain[..])).Some? ==>
                var k := InstanceLinkPosition(old(chain[..])).value;
                var link := old(chain[..])[k].u.pLayerInfo[0];
                && chain[..] == old(chain[..])[k := PopInstanceLink(old(chain[..])[k])]
                && gphypa == OnceSet(old(gphypa), link.pfnNextGetPhysicalDeviceProcAddr)
                && gdpaMap == old(gdpaMap) && deviceMap == old(deviceMap)
                && (driverResult != SUCCESS ==>
                      && res == driverResult
                      && gipa == old(gipa) && entry == old(entry)
                      && instanceMap == old(instanceMap) && phyToInstanceMap == old(phyToInstanceMap)
                      && trace == old(trace) + [CreateInstanceCall(link.pfnNextGetInstanceProcAddr, gphypa)])
                && (driverResult == SUCCESS ==>
                      && res == SUCCESS
                      && gipa == OnceSet(old(gipa), link.pfnNextGetInstanceProcAddr)
                      && entry == OnceSet(old(entry), LayerFn(DispatchNextGetInstanceProcAddr))
                      && instanceMap == old(instanceMap)[created := LayerInstance(AshInstance(created))]
                      && phyToInstanceMap == old(phyToInstanceMap) + (map p | p in physDevices(created) :: created)
                      && trace == old(trace) + [CreateInstanceCall(link.pfnNextGetInstanceProcAddr, gphypa),
                                                LoadInstance(created, gipa),
                                                EnumeratePhysicalDevicesCall(created)])
    {
      var found := GetInstanceChainInfo(chain, LayerFunction.LAYER_LINK_INFO);
      if found.None? {
        return ERROR_INITIALIZATION_FAILED;
      }
      var k := found.value;
      var chainInfo := chain[k];
      var layerInfo := chainInfo.u.pLayerInfo[0];
      chain[k] := PopInstanceLink(chainInfo);

      var nextGipa := layerInfo.pfnNextGetInstanceProcAddr;
      gphypa := OnceSet(gphypa, layerInfo.pfnNextGetPhysicalDeviceProcAddr);

      trace := trace + [CreateInstanceCall(nextGipa, gphypa)];
      if driverResult != SUCCESS {
        return driverResult;
      }

      RegisterInstance(nextGipa, created);
      return SUCCESS;
    }

    /** The part of `dummy_vkCreateInstance` after the forwarded call has
        succeeded: capture the upstream resolver, load the instance table,
        map the physical devices and insert the instance record. */
    method RegisterInstance(nextGipa: Pfn, created: VkInstance)
      requires Valid() && gphypa.Some?
      modifies this
      ensures Valid()
      ensures gipa == OnceSet(old(gipa), nextGipa)
      ensures entry == OnceSet(old(entry), LayerFn(DispatchNextGetInstanceProcAddr))
      ensures instanceMap == old(instanceMap)[created := LayerInstance(AshInstance(created))]
      ensures phyToInstanceMap == old(phyToInstanceMap) + (map p | p in physDevices(created) :: created)
      ensures gphypa == old(gphypa) && gdpaMap == old(gdpaMap) && deviceMap == old(deviceMap)
      ensures trace == old(trace) + [LoadInstance(created, gipa), EnumeratePhysicalDevicesCall(created)]
    {
      // GIPA must be set before the instance table is loaded through
      // dispatch_next_vkGetInstanceProcAddr, which reads it.
      gipa := OnceSet(gipa, nextGipa);
      entry := OnceSet(entry, LayerFn(DispatchNextGetInstanceProcAddr));
      var ashInstance := AshInstance(created);
      trace := trace + [LoadInstance(created, gipa)];

      var phyDevices := physDevices(ashInstance.handle);
      trace := trace + [EnumeratePhysicalDevicesCall(created)];
      MapPhysicalDevices(phyDevices, created);
      instanceMap := instanceMap[created := LayerInstance(ashInstance)];
    }

    /** `dummy_vkDestroyInstance`: a no-op for an instance the layer does
        not hold; otherwise the record and the back-references of the
        instance's physical devices go, and the real destroy is forwarded. */
    method DestroyInstance(instance: VkInstance)
      requires Valid()
      modifies this
      ensures Valid()
      ensures instance !in old(instanceMap) ==> unchanged(this)
      ensures instance in old(instanceMap) ==>
                && instanceMap == old(instanceMap) - {instance}
                && phyToInstanceMap == old(phyToInstanceMap) - (set p | p in physDevices(instance))
                && gipa == old(gipa) && gphypa == old(gphypa) && entry == old(entry)
                && gdpaMap == old(gdpaMap) && deviceMap == old(deviceMap)
                && trace == old(trace) + [EnumeratePhysicalDevicesCall(instance), DestroyInstanceCall(instance)]
    {
      if instance !in instanceMap {
        return;
      }
      var layerInstance := instanceMap[instance];
      instanceMap := instanceMap - {instance};

      var ashInstance := layerInstance.ashInstance;
      var phyDevices := physDevices(ashInstance.handle);
      trace := trace + [EnumeratePhysicalDevicesCall(ashInstance.handle)];
      UnmapPhysicalDevices(phyDevices);
      trace := trace + [DestroyInstanceCall(instance)];
    }

    /** `dummy_vkCreateDevice`. The physical device must have been
        enumerated by a registered instance; `driverResult` is what the
        forwarded `vkCreateDevice` returns and `created` the new handle. */
    method CreateDevice(physicalDevice: VkPhysicalDevice, chain: array<LayerDeviceCreateInfo>,
                        driverResult: VkResult, created: VkDevice)
      returns (res: VkResult)
      requires Valid()
      requires physicalDevice in phyToInstanceMap
      requires DeviceLinkReadable(chain[..])
      modifies this, chain
      ensures Valid()
      ensures DeviceLinkPosition(old(chain[..])).None? ==>
                res == ERROR_INITIALIZATION_FAILED && unchanged(this) && chain[..] == old(chain[..])
      ensures DeviceLinkPosition(old(chain[..])).Some? ==>
                var k := DeviceLinkPosition(old(chain[..])).value;
                var link := old(chain[..])[k].u.pLayerInfo[0];
                var instance := old(phyToInstanceMap)[physicalDevice];
                && chain[..] == old(chain[..])[k := PopDeviceLink(old(chain[..])[k])]
                && gipa == old(gipa) && gphypa == old(gphypa) && entry == old(entry)
                && instanceMap == old(instanceMap) && phyToInstanceMap == old(phyToInstanceMap)
                && (driverResult != SUCCESS ==>
                      && res == driverResult
                      && gdpaMap == old(gdpaMap) && deviceMap == old(deviceMap)
                      && trace == old(trace) + [CreateDeviceCall(physicalDevice, instance)])
                && (driverResult == SUCCESS ==>
                      && res == SUCCESS
                      && gdpaMap == old(gdpaMap)[created := link.pfnNextGetDeviceProcAddr]
                      && deviceMap == old(deviceMap)[created := LayerDevice(instance, AshDevice(created))]
                      && trace == old(trace) + [CreateDeviceCall(physicalDevice, instance),
                                                LoadDevice(created, Some(link.pfnNextGetDeviceProcAddr))])
    {
      var instance := phyToInstanceMap[physicalDevice];
      var layerInstance := instanceMap[instance];

      var found := GetDeviceChainInfo(chain, LayerFunction.LAYER_LINK_INFO);
      if found.None? {
        return ERROR_INITIALIZATION_FAILED;
      }
      var k := found.value;
      var chainInfo := chain[k];
      var layerInfo := chainInfo.u.pLayerInfo[0];
      chain[k] := PopDeviceLink(chainInfo);

      var gdpa := layerInfo.pfnNextGetDeviceProcAddr;

      trace := trace + [CreateDeviceCall(physicalDevice, layerInstance.ashInstance.handle)];
      if driverResult != SUCCESS {
        return driverResult;
      }

      // The device's resolver must be registered before the device table
      // is loaded through dispatch_next_vkGetDeviceProcAddr, which reads it.
      gdpaMap := gdpaMap[created := gdpa];
      trace := trace + [LoadDevice(created, Some(gdpaMap[created]))];

      deviceMap := deviceMap[created := LayerDevice(instance, AshDevice(created))];
      return SUCCESS;
    }

    /** `dummy_vkDestroyDevice`: the device's resolver entry goes in every
        case; the record goes and the real destroy is forwarded only if the
        layer holds the device. */
    method DestroyDevice(device: VkDevice)
      requires Valid()
      modifies this
      ensures Valid()
      ensures gdpaMap == old(gdpaMap) - {device}
      ensures deviceMap == old(deviceMap) - {device}
      ensures gipa == old(gipa) && gphypa == old(gphypa) && entry == old(entry)
      ensures instanceMap == old(instanceMap) && phyToInstanceMap == old(phyToInstanceMap)
      ensures device in old(deviceMap) ==> trace == old(trace) + [DestroyDeviceCall(device)]
      ensures device !in old(deviceMap) ==> unchanged(this)
    {
      gdpaMap := gdpaMap - {device};

      if device !in deviceMap {
        assert gdpaMap == old(gdpaMap);
        return;
      }
      var layerDevice := deviceMap[device];
      deviceMap := deviceMap - {device};
      trace := trace + [DestroyDeviceCall(layerDevice.ashDevice.handle)];
    }
  }

  /** After a device is registered with resolver `gdpa`, the device-level
      resolver returns the layer's interceptor for the three intercepted
      names and forwards every other name to `gdpa` for that very device;
      other devices resolve as before. */
  lemma DeviceResolutionAfterCreate(gdpaMap: map<VkDevice, Pfn>, device: VkDevice, gdpa: Pfn,
                                    other: VkDevice, name: string, next: DeviceResolver)
    requires other != device
    ensures ResolveDeviceProcAddr(gdpaMap[device := gdpa], device, name, next)
            == (if name in DEVICE_COMMANDS then Some(LayerFn(DeviceIntercept(name).value)) else next(gdpa, device, name))
    ensures ResolveDeviceProcAddr(gdpaMap[device := gdpa], other, name, next)
            == ResolveDeviceProcAddr(gdpaMap, other, name, next)
  {
  }
}
