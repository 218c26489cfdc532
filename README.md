# ash-layer dispatch core in Dafny

This project models the dispatch and bookkeeping core of `ash-layer`, a Vulkan layer. The layer follows the "Layer Interface Version 2" protocol of the Vulkan Loader–Layer Interface. The model has three parts:

- **Loader record types** (`sys.dfy`, module `Sys`). These are the tagged 32-bit newtypes `LayerFunction`, `ChainType` and `NegotiateLayerStructType`, each with `from_raw`/`as_raw`. The part also holds:
  - the version-negotiation record;
  - the instance and device link records;
  - the loader create-info records with their payload unions and their `Default` values;
  - the pre-instance call chains and their `call_down` forwarders.
- **Chain walker** (`utils.dfy`, module `Utils`). `get_instance_chain_info` and `get_device_chain_info` search a create-info's `p_next` chain for the first loader record with a given `function` tag. They are modelled as `while` loops over an array. The loop cursor is an index, and the index one past the end stands for the null pointer. Both loops are proved equal to one specification function, `FirstChainInfo`.
- **The dummy layer** (`layer_dummy.dfy`, module `LayerDummy`).
  - Version negotiation writes the loader's record in place.
  - The five proc-address resolvers are functions of the cell or map they read, plus `next`, the behaviour of the downstream resolver they forward to.
  - Class `Layer` holds the process state: the set-once cells `GIPA`, `GPHYPA` and `ENTRY`, and the registries `INSTANCE_MAP`, `PHY_TO_INSTANCE_MAP`, `GDPA_MAP` and `DEVICE_MAP`.
  - Its methods `CreateInstance`, `DestroyInstance`, `CreateDevice` and `DestroyDevice` update that state as the source does.
  - The driver is represented by parameters: the result of each forwarded create call, the handle that call produces, and a fixed enumeration of each instance's physical devices.
  - Forwarded calls go into a ghost trace. Each trace event records the value of the cell or map entry the call depends on at that moment. This shows the orderings the source relies on:
    - `GPHYPA` is set before `vkCreateInstance` is forwarded;
    - `GIPA` is set before the instance table is loaded;
    - the device's `GDPA_MAP` entry exists before the device table is loaded.

`vk.dfy` (module `Vk`) holds the API basics:
- integer widths and `Option`;
- `vk::Result` with `SUCCESS = 0` and `ERROR_INITIALIZATION_FAILED = -3`;
- the structure types `LOADER_INSTANCE_CREATE_INFO = 47` and `LOADER_DEVICE_CREATE_INFO = 48`;
- handles;
- function pointers as tokens: either one of the layer's own exported functions or a foreign one.

`scenarios.dfy` is client code. It drives the layer through the method contracts alone:
- negotiate, create an instance behind a foreign chain record, then create a device on one of its physical devices;
- resolve names through that device;
- destroy the instance, then destroy it again;
- destroy the device twice;
- a create-instance whose forwarded call fails, and one whose chain has no link record.

Three behaviours of the code the model keeps:
- **Device records outlive their instance.** `dummy_vkDestroyInstance` does not remove the devices of the destroyed instance, so "a device's owning instance is registered" is not an invariant of the code. `Layer.Valid` does not claim it, and `Scenarios.InstanceAndDeviceLifecycle` reaches a state where it fails. The invariant the code does keep is in `Layer.Valid`: every physical device maps to a registered instance that enumerates it.
- **Negotiation ignores the offered version.** Negotiation does not check the version the loader offers. It always writes 2.
- **Unknown handles in the resolvers.** A device resolver asked about a device it never registered returns null rather than failing.

## Model

| member | source | states |
|---|---|---|
| `Sys.LayerFunction.AsRaw` | src/sys.rs:52-66 | `from_raw(as_raw(f)) == f` for every tag |
| `Sys.NegotiateLayerStructType.AsRaw` | src/sys.rs:15-27 | `from_raw(as_raw(t)) == t` for every tag |
| `Sys.ChainType.AsRaw` | src/sys.rs:200-214 | `from_raw(as_raw(t)) == t` for every tag |
| `Sys.RawRoundTrips` | src/sys.rs:59-65 | `from_raw(x).as_raw() == x` for every 32-bit x, for all three tagged newtypes |
| `Sys.LayerFunctionConstants` | src/sys.rs:54-57 | the four `LayerFunction` tags are 0, 1, 2 and 3, pairwise distinct |
| `Sys.ChainTypeAndStructTypeConstants` | src/sys.rs:201-205 | `ChainType` tags are 0 to 3; `UNINTIALIZED` is 0 and `INTERFACE_STRUCT` is 1 |
| `Sys.LinkAtStep` | src/sys.rs:234-240 | following `p_next_link` from the k-th link of a chain gives the (k + 1)-th |
| `Sys.CallDownHandsOnNextLink` | src/sys.rs:241-300 | each of the three `call_down` forwarders, called from the k-th link of a chain, calls that link's `pfn_next_layer` with exactly the (k + 1)-th link as chain and its other arguments unchanged, and returns what that call returns |
| `Utils.FirstChainInfo` | src/utils.rs:10-20 | the result is the first record passing both the structure-type and the `function` test; every earlier record fails a test; `None` exactly when no record passes, including for the empty chain |
| `Utils.GetInstanceChainInfo` | src/utils.rs:6-21 | the loop returns the first `LOADER_INSTANCE_CREATE_INFO` record with the requested tag, or `None` when there is none; it has no write frame, so the chain is unchanged |
| `Utils.GetDeviceChainInfo` | src/utils.rs:23-38 | the same first-match / none-iff-absent result with `LOADER_DEVICE_CREATE_INFO` |
| `Utils.FirstChainInfoSkipsPrefix` | src/utils.rs:11-19 | records that fail the test placed in front of a chain do not change which record is found, only its position |
| `Utils.NearMissIsSkipped` | src/utils.rs:13-15 | a record with the right structure type and the wrong tag, or the right tag and the wrong structure type, is passed over |
| `Utils.DefaultInstanceCreateInfoIsFound` | src/sys.rs:145-156 | the default instance record has type `LOADER_INSTANCE_CREATE_INFO` and tag `LAYER_LINK_INFO` (the walker finds it, and only under that type and tag) and a null `p_layer_info` |
| `Utils.DefaultDeviceCreateInfoIsFound` | src/sys.rs:184-195 | the default device record has type `LOADER_DEVICE_CREATE_INFO` and tag `LAYER_LINK_INFO` and a null `p_layer_info` |
| `LayerDummy.InstanceIntercept` | examples/layer_dummy.rs:86-95 | a function of the layer is returned exactly for the seven listed names, and it is the one implementing the command of that name |
| `LayerDummy.DeviceIntercept` | examples/layer_dummy.rs:111-116 | a function of the layer is returned exactly for the three listed names, and it is the one implementing that command |
| `LayerDummy.InterceptTablesInvertCommandName` | examples/layer_dummy.rs:86-116 | every intercepted function is found under its own command name, and no other function is |
| `LayerDummy.ResolveInstanceProcAddr` | examples/layer_dummy.rs:80-101 | the layer's own function for the seven names; any other name is forwarded to `GIPA` with the same instance and name; the result is null if `GIPA` is unset; if the layers below never return this layer's functions, the result is one of this layer's functions exactly for the seven names |
| `LayerDummy.ResolveDeviceProcAddr` | examples/layer_dummy.rs:105-122 | the layer's own function for three names; other names are forwarded through `GDPA_MAP[device]`; null for an unregistered device |
| `LayerDummy.ResolvePhysicalDeviceProcAddr` | examples/layer_dummy.rs:290-304 | only `vkCreateDevice` is intercepted; other names are forwarded to `GPHYPA`, or give null if it is unset |
| `LayerDummy.ResolveNextInstanceProcAddr` | examples/layer_dummy.rs:308-330 | returns itself and `dispatch_next_vkGetDeviceProcAddr` under their names; null for the three global enumeration commands whatever `GIPA` holds; otherwise forwards to `GIPA` |
| `LayerDummy.ResolveNextDeviceProcAddr` | examples/layer_dummy.rs:334-348 | returns itself under its name; otherwise forwards through `GDPA_MAP[device]`, or gives null |
| `LayerDummy.ShieldedCommandsAreNullDownstream` | examples/layer_dummy.rs:317-323 | the three enumeration commands are null through the downstream-facing resolver in every state, while the application-facing resolver forwards them |
| `LayerDummy.NegotiateLoaderLayerInterfaceVersion` | examples/layer_dummy.rs:58-76 | for any offered version: sets the version to 2 and the three pointers to the layer's three resolvers, leaves the other fields alone, and returns `SUCCESS` |
| `LayerDummy.NegotiatedResolversResolveToThemselves` | examples/layer_dummy.rs:66-74 | the three negotiated pointers are what the instance resolver returns under their names, in every state |
| `LayerDummy.OnceSet` | examples/layer_dummy.rs:44-45 | after a set, an empty cell holds exactly the value written, and a cell that already held one keeps it |
| `LayerDummy.OnceSetFirstWriteWins` | examples/layer_dummy.rs:160 | a later set never changes the cell; the first value written is the one kept |
| `LayerDummy.Layer.constructor` | examples/layer_dummy.rs:44-54 | all cells empty, all maps empty |
| `LayerDummy.Layer.MapPhysicalDevices` | examples/layer_dummy.rs:174-177 | afterwards every enumerated physical device maps to the instance; other mappings are kept |
| `LayerDummy.Layer.UnmapPhysicalDevices` | examples/layer_dummy.rs:203-206 | afterwards the mappings of exactly the enumerated physical devices are gone |
| `LayerDummy.Layer.CreateInstance` | examples/layer_dummy.rs:127-187 | covers every outcome (listed below the table) and keeps `Valid` |
| `LayerDummy.Layer.RegisterInstance` | examples/layer_dummy.rs:156-186 | sets `GIPA` and `ENTRY` first-write-wins, records the table load with `GIPA` already set, maps every enumerated physical device to the new instance, and inserts the instance record |
| `LayerDummy.Layer.DestroyInstance` | examples/layer_dummy.rs:191-209 | a no-op that forwards nothing for an unknown instance; otherwise removes the record and the mappings of exactly its enumerated physical devices, forwards `vkDestroyInstance` once, and keeps `Valid` |
| `LayerDummy.Layer.CreateDevice` | examples/layer_dummy.rs:213-266 | covers every outcome (listed below the table) and keeps `Valid` |
| `LayerDummy.Layer.DestroyDevice` | examples/layer_dummy.rs:270-286 | always removes any `GDPA_MAP` entry; removes the device record and forwards `vkDestroyDevice` once only if the record existed; a second call changes nothing |
| `LayerDummy.DeviceResolutionAfterCreate` | examples/layer_dummy.rs:244-248 | after a device is registered, its resolver intercepts the three names and forwards every other name to that device's captured next resolver; other devices resolve as before |

Outcomes of `LayerDummy.Layer.CreateInstance`:
- **No link record:** returns `ERROR_INITIALIZATION_FAILED`; state and chain are unchanged.
- **Link record found:** the link is popped in place, and `GPHYPA` is set first-write-wins before the forward.
- **Forwarded call fails:** its result is returned unchanged. `GIPA`, `ENTRY` and all maps stay untouched.
- **Forwarded call succeeds:** the steps of `RegisterInstance` run, and the call returns `SUCCESS`.

Outcomes of `LayerDummy.Layer.CreateDevice`:
- **No link record:** returns `ERROR_INITIALIZATION_FAILED`; state and chain are unchanged.
- **Link record found:** the link is popped in place, and `vkCreateDevice` is forwarded through the instance owning the physical device.
- **Forwarded call fails:** its result is returned unchanged. The maps stay untouched.
- **Forwarded call succeeds:**
  - `GDPA_MAP[device]` becomes the link's next device resolver, and is recorded as set when the device table is loaded;
  - `DEVICE_MAP[device].instance` becomes `PHY_TO_INSTANCE_MAP[physical_device]`;
  - the call returns `SUCCESS`.

## Left out

- Logging (`function!` and `log!`, examples/layer_dummy.rs:10-29): output only, built from compiler-dependent type names.
- Concurrency: `DashMap`, `OnceCell` and `Lazy` are modelled as sequential maps and `Option` cells.
- No model of the ash calls `Entry::from_static_fn`, `Instance::load`, `Device::load`, `khr::Surface::new`, `khr::Swapchain::new` and `enumerate_physical_devices`. They are foreign code:
  - the loaded tables are opaque tokens that hold only their handle;
  - the surface and swapchain sub-objects are not represented;
  - enumeration is a fixed function given to the `Layer` constructor, assumed never to fail.
- Forwarded driver calls: `vkCreateInstance`, `vkCreateDevice`, `vkDestroyInstance`, `vkDestroyDevice` and the enumeration are called through pointers the model does not follow. The model instead takes their results and new handles as parameters and records the calls as ghost trace events.
- How the `vkCreateInstance` pointer is obtained: the source resolves it through the next layer's `vkGetInstanceProcAddr` with a null instance. The model does not follow that resolution.
- Panics and undefined behaviour become preconditions:
  - the `unwrap`s at examples/layer_dummy.rs:220-221 become the requirement that the physical device is mapped; the rest of the chain of lookups follows from `Layer.Valid`;
  - reading the union of the found record as `p_layer_info` (the layout does not tie the variant to the `function` tag) and then reading through it becomes the requirement that the found link record carries the link variant and a non-empty link list (`InstanceLinkReadable`, `DeviceLinkReadable`).
- The `assert!`s on `p_instance`/`p_device` (examples/layer_dummy.rs:154, 242) are not modelled: the output handles are parameters, not pointers.
- Binary layout and the FFI boundary: `repr(C)` layout, `transmute`, `CStr` and the `extern "system"` ABI are not modelled. Unions are read as tagged variants, command names are strings, and `p_next` links are positions in a sequence.
- `LoaderFeatureFlagBits` and its bitflags macro (src/sys.rs:109-116): the feature payload is kept as a plain 32-bit value.
- `LayerDeviceInfo`, `ChainHeader` and the `PFN_*` aliases are declared as records or tokens only; nothing in the core computes with them.
- LayerDummy.ResolveInstanceProcAddr, LayerDummy.ResolveDeviceProcAddr, LayerDummy.ResolvePhysicalDeviceProcAddr, LayerDummy.ResolveNextInstanceProcAddr and LayerDummy.ResolveNextDeviceProcAddr: "the result is one of this layer's functions exactly for the intercepted names" is stated only under the assumption `ForeignOnly(next)`, because the model cannot see what the layers below return.
