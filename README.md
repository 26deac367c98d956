# libvirt VIF drivers (nova), modelled in Dafny

This project models the decision layer of nova's libvirt VIF drivers
(`nova/virt/libvirt/vif.py`). For a virtual interface (VIF), the drivers compute:

- the guest interface configuration that `get_config` hands to libvirt: the NIC model
  and driver name, the host backend, and the firewall filter parameters;
- the host plumbing that `plug` sets up and `unplug` removes.

All six driver classes are covered:

- `LibvirtGenericVIFDriver` dispatches on the VIF type: bridge, ovs, 802.1qbg or 802.1qbh.
- The five legacy drivers each use one fixed strategy, with their own fallbacks for the
  bridge name and the Open vSwitch interface id.

The project has two layers.

**Specification.** Module `VifSpec` gives the meaning of each operation as a function of
its inputs. The inputs are the VIF, the instance, the image metadata, the configuration
options, and the libvirt version the driver goes by. The modules it builds on are:

- `VifModels`: the NIC-model table;
- `VifNames`: device names built from a prefix and an id;
- `NetworkModel`: the VIF, network and configuration values;
- `GuestConfig`: the interface configuration object and its setters.

Module `VifProperties` proves how the operations relate to each other.

**Driver objects.** Module `VifDriver` holds class `LibvirtVifDriver`, which carries the
cached libvirt version. Its methods follow the Python methods step by step:

- they fill in a fresh `GuestInterface` through its setters;
- each one is proved to produce exactly what the specification function says;
- the Quantum driver's `get_config` changes the caller's VIF in place, through a `VifRef`.

Module `VifScenarios` restates the unit tests in `nova/tests/test_libvirt_vif.py` on the
model: every test method except `test_multiple_nics` and the shadowed
`test_ovs_ethernet_driver` at :417 (see "Left out").

Some behaviour follows the code as written:

- `get_config_bridge` reads the primary address `subnets[0].ips[0]` (vif.py:174) before
  its guard on the subnets (vif.py:178). A VIF whose network has no subnet, or whose
  first subnet has no address, therefore fails. The model returns `LookupFailed` for it,
  and the guard is always true wherever it is reached.
- A missing `qbg_params` or `qbh_params` is a failed lookup as well.
- `NIC_NAME_LEN` is defined outside vif.py. Here it is the parameter `conf.nicNameLen`,
  which must be at least 3 so that a name has room for its three-letter prefix.
- The libvirt version the connection reports is a parameter, `reported`, of the methods
  that may ask for it. `EffectiveVersion(cached, reported)` is the version
  `has_libvirt_version` goes by.

## Model

| member | source | states |
|---|---|---|
| `VifModels.IsVifModelValid` | nova/virt/libvirt/vif.py:57-72 | Leaving the model unset is valid for every virt type, even an unknown one. Naming a model under a type outside qemu/kvm/xen/lxc/uml is an `UnsupportedVirtType` error, and the only error. lxc and uml accept no model. virtio is valid exactly on qemu/kvm, netfront exactly on xen, and the emulated NICs exactly on qemu/kvm/xen. A model that no hypervisor lists (such as "acme") is invalid on every known virt type. |
| `VifNames.PrefixedName` | nova/virt/libvirt/vif.py:146-151 | The name is exactly `(prefix + id)[:n]`: the prefix of `prefix + id` whose length is the smaller of `n` and `len(prefix + id)`. |
| `VifNames.VifDevname` | nova/virt/libvirt/vif.py:90-93 | The VIF's own `devname` when it has one. Otherwise exactly `("nic" + id)[:NIC_NAME_LEN]`. |
| `VifNames.BrName` | nova/virt/libvirt/vif.py:146-147 | The per-VIF bridge is exactly `("qbr" + iface_id)[:NIC_NAME_LEN]`. |
| `VifNames.VethPairNames` | nova/virt/libvirt/vif.py:149-151 | The veth ends are exactly `("qvb" + iface_id)[:NIC_NAME_LEN]` and `("qvo" + iface_id)[:NIC_NAME_LEN]`, and they always differ. |
| `VifNames.QuantumBridgeName` | nova/virt/libvirt/vif.py:575-578 | The Quantum fallback bridge is exactly `("brq" + network id)[:NIC_NAME_LEN]`. |
| `VifNames.DistinctPrefixesNeverCollide` | nova/virt/libvirt/vif.py:146-151 | Names with different prefixes differ, whatever the ids. |
| `VifNames.ShortIdsGetDistinctNames` | nova/virt/libvirt/vif.py:146-151 | Two different ids short enough to escape truncation give different names. |
| `VifNames.NameDependsOnIdPrefixOnly` | nova/virt/libvirt/vif.py:146-151 | Ids that share their first `NIC_NAME_LEN - 3` characters give the same name, so truncation can make long ids collide. |
| `VifNames.HybridDevicesDistinct` | nova/virt/libvirt/vif.py:352-354 | The hybrid strategy's bridge and its two veth ends are pairwise distinct devices. |
| `VifSpec.FrontendConfig` | nova/virt/libvirt/vif.py:95-128 | The image's `vif_model` wins whenever it is accepted. Without one, the model is virtio exactly on kvm/qemu with virtio enabled, and none otherwise. The driver name is "qemu" exactly for virtio on qemu. Only an image-chosen model can be refused. It is accepted exactly when `is_vif_model_valid_for_virt` answers true. An answer of false gives `UnsupportedHardware`, and an unknown virt type gives `UnsupportedVirtType`. Only the MAC address, model and driver are set. |
| `VifSpec.RemoveColons` | nova/virt/libvirt/vif.py:172 | The result contains no ':' and is no longer than the input. |
| `VifProperties.RemoveColonsDropsOnlyColons` | nova/virt/libvirt/vif.py:172 | The result is shorter than the input by exactly the number of colons in it. |
| `VifSpec.SubnetsOfVersion` | nova/virt/libvirt/vif.py:181-182 | The filtered list holds only subnets of the version, all taken from the input, and it holds every subnet of that version. |
| `VifSpec.FirstOfVersion` | nova/virt/libvirt/vif.py:186-192 | The filtered list is non-empty exactly when some subnet has the version. Its head is the first such subnet. |
| `VifSpec.BridgeSetupFor` | nova/virt/libvirt/vif.py:302-322 | `plug_bridge` prepares the bridge exactly when the network asks for it and is not multi-host. It adds a VLAN exactly when the network also asks for one. |
| `VifSpec.BridgeConfig` | nova/virt/libvirt/vif.py:161-203 | The backend is the driver's bridge with the VIF's tap device. The filter is attached exactly when a firewall is required. The call fails exactly when the frontend fails or there is no primary address. A frontend failure is passed on unchanged. Otherwise the frontend part is unchanged. |
| `VifSpec.RouteFor` | nova/virt/libvirt/vif.py:273-295 | A missing VIF type and an unknown VIF type are errors, with the matching exception. A known type routes to the method for exactly that type. |
| `VifSpec.Config` | nova/virt/libvirt/vif.py:273-295 | The generic driver refuses a missing or unknown VIF type before anything else. The legacy drivers never raise a VIF-type error. Once the type is accepted, a refused NIC model is the error raised, for every driver class. |
| `VifSpec.PlumbingFor` | nova/virt/libvirt/vif.py:383-405 | `plug` and `unplug` fail exactly for the generic driver on a missing or unknown VIF type, with the same exception as `get_config`. |
| `VifProperties.RemoveColonsKeepsColonFree` | nova/virt/libvirt/vif.py:172 | A string without colons is left unchanged. |
| `VifProperties.RemoveColonsDistributes` | nova/virt/libvirt/vif.py:172 | Removing colons from a concatenation is the concatenation of the results. With the two lemmas above, this fixes the function on every string: each ':' is dropped and every other character is kept in order. |
| `VifProperties.FilterParameters` | nova/virt/libvirt/vif.py:170-201 | The filter name is "nova-instance-" + instance name + "-" + the colon-free MAC address. The IP and DHCP server come from the first subnet. The RA server is the first IPv6 subnet's gateway + "/128", set exactly with IPv6 on and a gateway. The IPv4 CIDR is the first IPv4 subnet's, set exactly when same-network traffic is allowed. The IPv6 CIDR is set exactly when it is allowed and IPv6 is on. |
| `VifProperties.GenericRefusesSameVifs` | nova/virt/libvirt/vif.py:467-489 | `get_config`, `plug` and `unplug` of the generic driver refuse exactly the same VIFs, with the same exception. |
| `VifProperties.RouteRoundTrip` | nova/virt/libvirt/vif.py:285-292 | Dispatching on a route's own type name gives back that route. |
| `VifProperties.ConfigAgreesWithPlumbing` | nova/virt/libvirt/vif.py:367-373 | For every driver class, when `get_config` succeeds, `plug`/`unplug` pick the same strategy. The guest is attached to the very bridge or tap device the host side handles. |
| `VifProperties.HybridUsesPerVifBridge` | nova/virt/libvirt/vif.py:229-233 | The hybrid configuration uses the per-VIF "qbr" bridge and the tap device, whatever bridge the caller's network names. Its three host devices are distinct. |
| `VifProperties.OvsStrategyRule` | nova/virt/libvirt/vif.py:236-242 | A required firewall forces the hybrid strategy. Otherwise the virtual port is chosen exactly from version 9011 on, and ethernet exactly below it. The choice is monotone in the version. |
| `VifProperties.VersionMattersOnlyWhenConsulted` | nova/virt/libvirt/vif.py:81-88 | Where the driver does not ask for the libvirt version, the configuration and the plumbing do not depend on it. |
| `VifProperties.LegacyIgnoresVifType` | nova/virt/libvirt/vif.py:497-566 | The legacy drivers' configuration and plumbing do not depend on the VIF type, and their plug/unplug never fail. |
| `VifProperties.BridgeConfigIgnoresVifType` | nova/virt/libvirt/vif.py:161-203 | The bridge configuration does not depend on the VIF type. |
| `VifProperties.LegacyFallbacks` | nova/virt/libvirt/vif.py:512-578 | The Open vSwitch legacy drivers fall back to `libvirt_ovs_bridge` for an empty bridge and to the VIF id for an empty interface id. The Quantum driver always names a bridge, its "brq" one when the network has none. The generic and bridge drivers pass the VIF's values through. |
| `VifProperties.OvsPortsCarryInterfaceId` | nova/virt/libvirt/vif.py:325-365 | The Open vSwitch ports plug creates, tap or hybrid, are registered with the driver's interface id and the VIF's MAC address. The legacy Open vSwitch and hybrid drivers fall back to the VIF id. |
| `VifProperties.QuantumConfigPreparesBridge` | nova/virt/libvirt/vif.py:580-586 | Once the Quantum driver's `get_config` has marked the network, plug creates the bridge unless the network is multi-host. Without the mark, plug goes by the network's flags. The bridge name is unaffected. |
| `VifDriver.LibvirtVifDriver.constructor` | nova/virt/libvirt/vif.py:77-79 | A new driver has no cached version. |
| `VifDriver.LibvirtVifDriver.HasLibvirtVersion` | nova/virt/libvirt/vif.py:81-88 | The connection's version is cached on the first call and never replaced. The answer is whether the version gone by is at least the wanted one. |
| `VifDriver.LibvirtVifDriver.BaseGetConfig` | nova/virt/libvirt/vif.py:95-128 | Builds a fresh configuration object holding exactly `FrontendConfig`, or fails with its exception. |
| `VifDriver.LibvirtVifDriver.GetConfigBridge` | nova/virt/libvirt/vif.py:161-203 | The object holds exactly `BridgeConfig`, or the call fails with its exception. |
| `VifDriver.LibvirtVifDriver.GetConfigOvsEthernet` | nova/virt/libvirt/vif.py:205-214 | A tap-device backend as `OvsEthernetConfig` says. |
| `VifDriver.LibvirtVifDriver.GetConfigOvsBridge` | nova/virt/libvirt/vif.py:216-227 | A virtual-port backend with the driver's bridge and interface id, as `OvsBridgeConfig` says. |
| `VifDriver.LibvirtVifDriver.GetConfigOvsHybrid` | nova/virt/libvirt/vif.py:229-234 | The bridge configuration of a copy of the VIF on its per-VIF bridge. |
| `VifDriver.LibvirtVifDriver.GetConfigOvs` | nova/virt/libvirt/vif.py:236-242 | Follows `OvsStrategyFor`. The version is cached exactly when no firewall is required. |
| `VifDriver.LibvirtVifDriver.GetConfig802Qbg` | nova/virt/libvirt/vif.py:244-258 | An 802.1Qbg port on the network's interface with the VIF's parameters, or `LookupFailed` without them. |
| `VifDriver.LibvirtVifDriver.GetConfig802Qbh` | nova/virt/libvirt/vif.py:260-271 | An 802.1Qbh port with the VIF's profile id, or `LookupFailed` without it. |
| `VifDriver.LibvirtVifDriver.GetConfig` | nova/virt/libvirt/vif.py:273-295 | Realises `Config` for the version gone by. Only the Quantum driver marks the caller's network `should_create_bridge`, and every other driver leaves the VIF untouched. The version is cached exactly when `ConsultsVersion` holds. |
| `VifDriver.LibvirtVifDriver.PlumbingOvs` | nova/virt/libvirt/vif.py:451-457 | `plug_ovs`/`unplug_ovs` give `OvsPlumbing` for the version gone by, caching it exactly when no firewall is required. |
| `VifDriver.LibvirtVifDriver.Plumbing` | nova/virt/libvirt/vif.py:383-405 | `plug`/`unplug` give exactly `PlumbingFor` for the version gone by. The version is cached exactly when `ConsultsVersion` holds. |
| `VifDriver.ConfigurePlugUnplug` | nova/virt/libvirt/vif.py:81-88 | On one driver object, plug agrees with the configuration built before it. Unplug acts on exactly what plug set up, whatever version the connection reports later. Afterwards the caller's VIF carries the Quantum mark exactly for the Quantum driver. The cache holds the version from configuration time exactly when the driver asks for one. |
| `VifScenarios.KvmFrontend` | nova/tests/test_libvirt_vif.py:229-248 | On kvm with virtio enabled and no image model, the frontend is virtio with no driver name. |
| `VifScenarios.ModelKvmBogus` | nova/tests/test_libvirt_vif.py:273-286 | An image asking for "acme" on kvm gives `UnsupportedHardware`. |
| `VifScenarios.ModelKvmCustom` | nova/tests/test_libvirt_vif.py:250-271 | An image asking for "e1000" on kvm gets that model, with no driver name. |
| `VifScenarios.ModelXen` | nova/tests/test_libvirt_vif.py:309-328 | On xen, with virtio enabled, there is neither a model nor a driver. |
| `VifScenarios.ModelQemu` | nova/tests/test_libvirt_vif.py:288-307 | On qemu, the model is virtio with driver "qemu". |
| `VifScenarios.ModelNoVirtio` | nova/tests/test_libvirt_vif.py:208-227 | On kvm with virtio off, there is neither a model nor a driver. |
| `VifScenarios.GenericDriverNone` | nova/tests/test_libvirt_vif.py:330-338 | The generic driver refuses a VIF without a type. |
| `VifScenarios.FixtureFilter` | nova/tests/test_libvirt_vif.py:340-370 | The filter parameters the test expects for its network. |
| `VifScenarios.BridgeDrivers` | nova/tests/test_libvirt_vif.py:372-388 | The bridge driver and the generic driver both give bridge br0, the tap device, the MAC address and the filter. |
| `VifScenarios.QuantumBridgeDriver` | nova/tests/test_libvirt_vif.py:390-399 | With no bridge on the network, the Quantum driver uses ("brq" + network id)[:14]. |
| `VifScenarios.GenericOvsEthernet` | nova/tests/test_libvirt_vif.py:427-434 | No firewall and libvirt 9010 give a tap device. |
| `VifScenarios.OvsVirtualPortDrivers` | nova/tests/test_libvirt_vif.py:461-481 | At 9011 without a firewall, both drivers give a virtual port on br0. The legacy one uses the VIF id as interface id, the generic one the VIF's own id. |
| `VifScenarios.HybridBridgeScenario` | nova/tests/test_libvirt_vif.py:483-495 | The hybrid configuration of a fixture VIF is on its per-VIF bridge. |
| `VifScenarios.LegacyHybridDriver` | nova/tests/test_libvirt_vif.py:497-506 | The hybrid legacy driver attaches the guest to ("qbr" + VIF id)[:14]. |
| `VifScenarios.GenericHybridDriver` | nova/tests/test_libvirt_vif.py:508-517 | The generic driver with the iptables firewall does the same at any libvirt version. |
| `VifScenarios.GenericOvsWithFirewallIsHybrid` | nova/virt/libvirt/vif.py:236-238 | For an Open vSwitch VIF with a firewall required, the generic driver's configuration is the hybrid one. |
| `VifScenarios.Generic8021QbhDriver` | nova/tests/test_libvirt_vif.py:519-548 | A direct port on eth0 with the VIF's profile id. |
| `VifScenarios.Generic8021QbgDriver` | nova/tests/test_libvirt_vif.py:550-600 | A direct 802.1Qbg port on eth0 with the VIF's MAC address and its manager id, type id, type id version and instance id. |
| `VifScenarios.VersionIsAskedOnce` | nova/virt/libvirt/vif.py:81-88 | After a configuration against libvirt 9010, a driver keeps choosing the tap device even when the connection would report 9011. |

## Left out

- Cells message routing and the cells manager: nova/tests/cells/test_cells_manager.py only mocks them, and their implementation is not part of this model.
- nova/virt/netutils.py is not part of this model. It wraps `netaddr` and renders a file template.
- The bodies of `plug_*` and `unplug_*` are left out. They run host commands (`brctl`, `ip link`, `ovs-vsctl` through `linux_net`) and check whether devices exist. The model keeps which strategy runs and which devices it names (`HostPlumbing`), not the commands, their order, or the `device_exists` checks.
- `plug_bridge`'s choice of host interface (`vlan_interface`/`flat_interface` or the network's `bridge_interface`) and the VLAN number are not modelled. Only the decision to ensure a bridge, with or without a VLAN, is kept.
- The instance's uuid, which `create_ovs_vif_port` receives, is not carried into the plumbing value. The interface id and the MAC address it also receives are carried.
- `unplug`'s swallowing of `ProcessExecutionError` and all logging are host I/O and are left out.
- `designer` setters, `vconfig` objects and their XML serialisation are left out. Each setter is modelled as recording its arguments in `GuestInterface`.
- A `devname` key present with the value `None` is not distinguished from a missing key. The model treats both as absent.
- The VIF's `network` is assumed present. `network.get_meta(..., False)` flags are booleans, and an absent flag reads as false.
- Networks shared between VIFs are not modelled: the Quantum driver's in-place update is shown on one `VifRef`.
- RemoveColons: its own contract states only that no ':' remains and that the result is no longer than the input. The exact length is the separate lemma `RemoveColonsDropsOnlyColons`. Stated on the function, a multiset count over every MAC-address literal made the test lemmas too costly to check.
- `test_multiple_nics` (nova/tests/test_libvirt_vif.py:166-206) exercises only the `vconfig` guest XML with three hand-made interfaces and no VIF driver. XML serialisation is outside this model.
- The test `test_ovs_ethernet_driver` at nova/tests/test_libvirt_vif.py:417 is shadowed by the method of the same name at :427, so only the latter is restated.
