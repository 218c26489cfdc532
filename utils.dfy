/** The chain walker of src/utils.rs: a linear search down the `p_next`
    chain of a create-info for the loader record with a given `function`
    tag. The chain is an array in `p_next` order; the walker's cursor is an
    index, and the index one past the end is the null pointer. */
module Utils {
  import opened Vk
  import opened Sys

  /** The test the walker applies to each record: the loader's structure
      type for this create-info, and the requested `function` tag. */
  predicate IsChainInfo<U>(info: LayerCreateInfo<U>, sType: StructureType, tag: LayerFunction)
  {
    info.sType == sType && info.layerFunction == tag
  }

  /** The position of the first record of `chain` that passes the test, or
      `None` when no record does (in particular for the empty chain). */
  function FirstChainInfo<U>(chain: seq<LayerCreateInfo<U>>, sType: StructureType, tag: LayerFunction)
    : (r: Option<nat>)
    ensures r.Some? ==> r.value < |chain| && IsChainInfo(chain[r.value], sType, tag)
    ensures r.Some? ==> forall j :: 0 <= j < r.value ==> !IsChainInfo(chain[j], sType, tag)
    ensures r.None? <==> forall j :: 0 <= j < |chain| ==> !IsChainInfo(chain[j], sType, tag)
  {
    if chain == [] then None
    else if IsChainInfo(chain[0], sType, tag) then Some(0)
    else match FirstChainInfo(chain[1..], sType, tag)
      case None => None
      case Some(k) => Some(k + 1)
  }

  /** `get_instance_chain_info`: reads the chain and returns the position
      of the first loader instance record carrying `tag`. */
  method GetInstanceChainInfo(chain: array<LayerInstanceCreateInfo>, tag: LayerFunction)
    returns (r: Option<nat>)
    ensures r == FirstChainInfo(chain[..], LOADER_INSTANCE_CREATE_INFO, tag)
  {
    var i := 0;
    while i < chain.Length
      invariant 0 <= i <= chain.Length
      invariant forall j :: 0 <= j < i ==> !IsChainInfo(chain[j], LOADER_INSTANCE_CREATE_INFO, tag)
    {
      var info := chain[i];
      if info.sType == LOADER_INSTANCE_CREATE_INFO && info.layerFunction == tag {
        return Some(i);
      }
      i := i + 1;
    }
    return None;
  }

  /** `get_device_chain_info`: the same search for the loader device record. */
  method GetDeviceChainInfo(chain: array<LayerDeviceCreateInfo>, tag: LayerFunction)
    returns (r: Option<nat>)
    ensures r == FirstChainInfo(chain[..], LOADER_DEVICE_CREATE_INFO, tag)
  {
    var i := 0;
    while i < chain.Length
      invariant 0 <= i <= chain.Length
      invariant forall j :: 0 <= j < i ==> !IsChainInfo(chain[j], LOADER_DEVICE_CREATE_INFO, tag)
    {
      var info := chain[i];
      if info.sType == LOADER_DEVICE_CREATE_INFO && info.layerFunction == tag {
        return Some(i);
      }
      i := i + 1;
    }
    return None;
  }

  /** Records placed in front of a chain that all fail the test do not
      change which record is found; they only shift its position. */
  lemma {:induction false} FirstChainInfoSkipsPrefix<U>(
    prefix: seq<LayerCreateInfo<U>>, chain: seq<LayerCreateInfo<U>>, sType: StructureType, tag: LayerFunction)
    requires forall j :: 0 <= j < |prefix| ==> !IsChainInfo(prefix[j], sType, tag)
    ensures FirstChainInfo(prefix + chain, sType, tag)
      == match FirstChainInfo(chain, sType, tag)
         case None => None
         case Some(k) => Some(k + |prefix|)
  {
    if prefix != [] {
      var whole := prefix + chain;
      assert whole[0] == prefix[0] && whole[1..] == prefix[1..] + chain;
      FirstChainInfoSkipsPrefix(prefix[1..], chain, sType, tag);
    } else {
      assert prefix + chain == chain;
    }
  }

  /** A record with the right structure type and the wrong tag, or the right
      tag and the wrong structure type, is passed over. */
  lemma NearMissIsSkipped<U>(near: LayerCreateInfo<U>, chain: seq<LayerCreateInfo<U>>,
                             sType: StructureType, tag: LayerFunction)
    requires (near.sType == sType) != (near.layerFunction == tag)
    ensures FirstChainInfo([near] + chain, sType, tag)
      == match FirstChainInfo(chain, sType, tag)
         case None => None
         case Some(k) => Some(k + 1)
  {
    FirstChainInfoSkipsPrefix([near], chain, sType, tag);
  }

  /** A default instance create-info is what the walker looks for, but its
      `p_layer_info` is null: there is no link to take from it. */
  lemma DefaultInstanceCreateInfoIsFound()
    ensures var d := DefaultLayerInstanceCreateInfo();
      && FirstChainInfo([d], LOADER_INSTANCE_CREATE_INFO, LayerFunction.LAYER_LINK_INFO) == Some(0)
      && FirstChainInfo([d], LOADER_INSTANCE_CREATE_INFO, LayerFunction.LOADER_FEATURES) == None
      && FirstChainInfo([d], LOADER_DEVICE_CREATE_INFO, LayerFunction.LAYER_LINK_INFO) == None
      && d.u == InstanceLayerInfo([])
  {
  }

  /** The device counterpart of `DefaultInstanceCreateInfoIsFound`. */
  lemma DefaultDeviceCreateInfoIsFound()
    ensures var d := DefaultLayerDeviceCreateInfo();
      && FirstChainInfo([d], LOADER_DEVICE_CREATE_INFO, LayerFunction.LAYER_LINK_INFO) == Some(0)
      && FirstChainInfo([d], LOADER_DEVICE_CREATE_INFO, LayerFunction.LOADER_FEATURES) == None
      && FirstChainInfo([d], LOADER_INSTANCE_CREATE_INFO, LayerFunction.LAYER_LINK_INFO) == None
      && d.u == DeviceLayerInfo([])
  {
  }
}
