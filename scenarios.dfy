/** Client code that drives the layer through the contracts of its entry
    points alone: negotiation, an instance and a device created and
    destroyed, resolution through the registered device, and repeated
    destroys. */
module Scenarios {
  import opened Vk
  import opened Sys
  import opened Utils
  import opened LayerDummy

  method InstanceAndDeviceLifecycle(next: DeviceResolver)
  {
    var h1, p1, p2, d1 := VkInstance(1), VkPhysicalDevice(10), VkPhysicalDevice(11), VkDevice(20);
    var nextGipa, nextGphypa, nextGdpa := ForeignFn(100), ForeignFn(101), ForeignFn(102);

    var negotiation := new NegotiateLayerInterface(
      NegotiateLayerStructType.INTERFACE_STRUCT, 0, 1, ForeignFn(0), ForeignFn(0), ForeignFn(0));
    var ok := NegotiateLoaderLayerInterfaceVersion(negotiation);
    assert ok == SUCCESS && negotiation.loaderLayerInterfaceVersion == 2;

    var layer := new Layer(i => if i == h1 then [p1, p2] else []);

    // A foreign record in front of the loader's link-info record.
    var foreign := LayerCreateInfo(StructureType(1000), LayerFunction.LAYER_LINK_INFO, InstanceLayerInfo([]));
    var linkInfo := LayerCreateInfo(LOADER_INSTANCE_CREATE_INFO, LayerFunction.LAYER_LINK_INFO,
      InstanceLayerInfo([LayerInstanceLink(nextGipa, nextGphypa)]));
    var chain := new LayerInstanceCreateInfo[2](i => if i == 0 then foreign else linkInfo);
    assert chain[..] == [foreign] + [linkInfo];
    assert InstanceLinkPosition([linkInfo]) == Some(0);
    NearMissIsSkipped(foreign, [linkInfo], LOADER_INSTANCE_CREATE_INFO, LayerFunction.LAYER_LINK_INFO);
    assert InstanceLinkPosition(chain[..]) == Some(1);

    var res := layer.CreateInstance(chain, SUCCESS, h1);
    assert res == SUCCESS;
    assert chain[1].u.pLayerInfo == [];
    assert layer.gipa == Some(nextGipa) && layer.gphypa == Some(nextGphypa);
    assert layer.phyToInstanceMap[p1] == h1 && layer.phyToInstanceMap[p2] == h1;
    assert h1 in layer.instanceMap;

    var deviceLink := LayerCreateInfo(LOADER_DEVICE_CREATE_INFO, LayerFunction.LAYER_LINK_INFO,
      DeviceLayerInfo([LayerDeviceLink(nextGipa, nextGdpa)]));
    var dchain := new LayerDeviceCreateInfo[1](i => deviceLink);
    assert dchain[..] == [deviceLink];
    assert DeviceLinkPosition(dchain[..]) == Some(0);

    res := layer.CreateDevice(p1, dchain, SUCCESS, d1);
    assert res == SUCCESS;
    assert layer.deviceMap[d1].instance == h1;
    assert ResolveDeviceProcAddr(layer.gdpaMap, d1, "vkCreateDevice", next) == Some(LayerFn(DummyCreateDevice));
    assert ResolveDeviceProcAddr(layer.gdpaMap, d1, "vkQueueSubmit", next) == next(nextGdpa, d1, "vkQueueSubmit");

    layer.DestroyInstance(h1);
    assert p1 !in layer.phyToInstanceMap && p2 !in layer.phyToInstanceMap;
    assert h1 !in layer.instanceMap;
    // The device outlives its instance's registration.
    assert d1 in layer.deviceMap && layer.deviceMap[d1].instance !in layer.instanceMap;

    ghost var traceBefore := layer.trace;
    layer.DestroyInstance(h1);
    assert layer.trace == traceBefore;

    layer.DestroyDevice(d1);
    assert d1 !in layer.deviceMap && d1 !in layer.gdpaMap;
    assert layer.trace == traceBefore + [DestroyDeviceCall(d1)];
    layer.DestroyDevice(d1);
    assert layer.trace == traceBefore + [DestroyDeviceCall(d1)];
  }

  /** A create-instance whose forwarded call fails still captures the
      physical-device resolver, but registers nothing. */
  method FailedCreateInstance()
  {
    var h1 := VkInstance(1);
    var layer := new Layer(i => [VkPhysicalDevice(10)]);
    var linkInfo := LayerCreateInfo(LOADER_INSTANCE_CREATE_INFO, LayerFunction.LAYER_LINK_INFO,
      InstanceLayerInfo([LayerInstanceLink(ForeignFn(100), ForeignFn(101))]));
    var chain := new LayerInstanceCreateInfo[1](i => linkInfo);
    assert chain[..] == [linkInfo];
    assert InstanceLinkPosition(chain[..]) == Some(0);

    var failure := VkResult(-1);
    var res := layer.CreateInstance(chain, failure, h1);
    assert res == failure;
    assert layer.gphypa == Some(ForeignFn(101)) && layer.gipa == None;
    assert layer.instanceMap == map[] && layer.phyToInstanceMap == map[];

    var empty := new LayerInstanceCreateInfo[0];
    assert empty[..] == [];
    res := layer.CreateInstance(empty, SUCCESS, h1);
    assert res == ERROR_INITIALIZATION_FAILED && layer.instanceMap == map[];
  }
}
