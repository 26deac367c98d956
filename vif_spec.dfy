/**
 * What the libvirt VIF drivers compute, as functions of their inputs: the guest interface
 * configuration `get_config` builds and the host plumbing `plug` and `unplug` work on,
 * for each driver class. The driver objects themselves, with their cached libvirt
 * version, are in module VifDriver.
 */
module VifSpec {
  import opened Outcomes
  import opened NetworkModel
  import opened GuestConfig
  import opened VifModels
  import opened VifNames

  const NoopFirewallDriver: string := "nova.virt.firewall.NoopFirewallDriver"

  /** The first libvirt release (0.9.11) whose bridge interfaces support Open vSwitch. */
  const LibvirtOvsVportVersion: int := 9011

  /** The driver classes: the generic driver, which dispatches on the VIF type, and the
      legacy drivers, each of which always uses one strategy. */
  datatype DriverKind =
    | Generic                 // LibvirtGenericVIFDriver
    | LegacyBridge            // LibvirtBridgeDriver
    | LegacyOpenVswitch       // LibvirtOpenVswitchDriver
    | LegacyHybridOvsBridge   // LibvirtHybridOVSBridgeDriver
    | LegacyOvsVirtualPort    // LibvirtOpenVswitchVirtualPortDriver
    | QuantumLinuxBridge      // QuantumLinuxBridgeVIFDriver
  {
    /** The legacy Open vSwitch drivers, which fall back to configured defaults. */
    predicate IsOvsFamily() {
      LegacyOpenVswitch? || LegacyHybridOvsBridge? || LegacyOvsVirtualPort?
    }
  }

  predicate FirewallRequired(conf: Conf) {
    conf.firewallDriver != NoopFirewallDriver
  }

  /** The bridge a driver attaches the VIF to (get_bridge_name and its overrides). */
  function BridgeName(kind: DriverKind, conf: Conf, vif: Vif): Option<string> {
    if kind.IsOvsFamily() then Some(OrElse(vif.network.bridge, conf.ovsBridge))
    else if kind.QuantumLinuxBridge? then
      Some(OrElse(vif.network.bridge, QuantumBridgeName(vif.network.id, conf.nicNameLen)))
    else vif.network.bridge
  }

  /** The Open vSwitch interface id (get_ovs_interfaceid and its overrides). */
  function OvsInterfaceId(kind: DriverKind, vif: Vif): Option<string> {
    if kind.IsOvsFamily() then Some(OrElse(vif.ovsInterfaceId, vif.id)) else vif.ovsInterfaceId
  }

  // ---------------------------------------------------------------- guest frontend

  /** The `vif_model` image property, if the image has one. */
  function ImageVifModel(image: Option<ImageMeta>): Option<string> {
    if image.Some? && "vif_model" in image.value.properties
    then Some(image.value.properties["vif_model"])
    else None
  }

  /** The NIC model: the image's choice, else virtio on KVM/QEMU when so configured,
      else none (libvirt chooses). */
  function ChosenModel(conf: Conf, image: Option<ImageMeta>): Option<string> {
    var fromImage := ImageVifModel(image);
    if fromImage.Some? then fromImage
    else if conf.libvirtType in {"kvm", "qemu"} && conf.useVirtioForBridges then Some("virtio")
    else None
  }

  /** The base get_config: the frontend part every configuration starts from. */
  function FrontendConfig(conf: Conf, vif: Vif, image: Option<ImageMeta>): (r: Result<IfaceConf>)
    // only a model the image asks for can be refused
    ensures r.Err? ==> ImageVifModel(image).Some?
    ensures r.Err? ==> r.error == UnsupportedVirtType(conf.libvirtType)
                       || r.error == UnsupportedHardware(ImageVifModel(image), conf.libvirtType)
    ensures r.Ok? ==> r.value == Blank.(macAddr := Some(vif.address), model := r.value.model,
                                        driverName := r.value.driverName)
    // the image's model wins whenever it is accepted
    ensures r.Ok? && ImageVifModel(image).Some? ==> r.value.model == ImageVifModel(image)
    // otherwise virtio exactly on KVM/QEMU with virtio enabled, and nothing else
    ensures ImageVifModel(image).None? ==>
              r.Ok? && (r.value.model.Some? <==> conf.libvirtType in {"kvm", "qemu"} && conf.useVirtioForBridges)
                    && (r.value.model.Some? ==> r.value.model == Some("virtio"))
    // the qemu driver works around vhost being enabled for plain QEMU guests
    ensures r.Ok? ==> (r.value.driverName.Some? <==> r.value.model == Some("virtio") && conf.libvirtType == "qemu")
    ensures r.Ok? && r.value.driverName.Some? ==> r.value.driverName == Some("qemu")
    // an image model is accepted exactly when the table lists it for the virt type
    ensures ImageVifModel(image).Some? ==>
              (r.Ok? <==> IsVifModelValid(conf.libvirtType, ImageVifModel(image)) == Ok(true))
    ensures IsVifModelValid(conf.libvirtType, ImageVifModel(image)) == Ok(false) ==>
              r == Err(UnsupportedHardware(ImageVifModel(image), conf.libvirtType))
    ensures IsVifModelValid(conf.libvirtType, ImageVifModel(image)).Err? ==>
              r == Err(UnsupportedVirtType(conf.libvirtType))
  {
    var model := ChosenModel(conf, image);
    var driver := if model == Some("virtio") && conf.libvirtType == "qemu" then Some("qemu") else None;
    match IsVifModelValid(conf.libvirtType, model)
    case Err(e) => Err(e)
    case Ok(valid) =>
      if !valid then Err(UnsupportedHardware(model, conf.libvirtType))
      else Ok(Blank.(macAddr := Some(vif.address), model := model, driverName := driver))
  }

  // ---------------------------------------------------------------- bridge filter

  /** `s.replace(':', '')`. */
  function RemoveColons(s: string): (r: string)
    ensures ':' !in r
    ensures |r| <= |s|
  {
    if s == [] then []
    else (if s[0] == ':' then [] else [s[0]]) + RemoveColons(s[1..])
  }

  /** `[s for s in subnets if s['version'] == version]`. */
  function SubnetsOfVersion(subnets: seq<Subnet>, version: int): (r: seq<Subnet>)
    ensures |r| <= |subnets|
    ensures forall i :: 0 <= i < |r| ==> r[i].version == version && r[i] in subnets
    ensures forall s :: s in subnets && s.version == version ==> s in r
  {
    if subnets == [] then []
    else (if subnets[0].version == version then [subnets[0]] else [])
         + SubnetsOfVersion(subnets[1..], version)
  }

  /** Subnet `i` is the first one of the given IP version. */
  ghost predicate IsFirstOfVersion(subnets: seq<Subnet>, version: int, i: int) {
    0 <= i < |subnets| && subnets[i].version == version
    && forall j :: 0 <= j < i ==> subnets[j].version != version
  }

  /** The head of the filtered list is exactly the first subnet of that version. */
  lemma {:induction false} FirstOfVersion(subnets: seq<Subnet>, version: int)
    ensures |SubnetsOfVersion(subnets, version)| > 0 <==> exists i :: IsFirstOfVersion(subnets, version, i)
    ensures forall i :: IsFirstOfVersion(subnets, version, i) ==>
              SubnetsOfVersion(subnets, version)[0] == subnets[i]
  {
    if subnets != [] {
      var rest := subnets[1..];
      FirstOfVersion(rest, version);
      if subnets[0].version == version {
        assert IsFirstOfVersion(subnets, version, 0);
      } else {
        assert SubnetsOfVersion(subnets, version) == SubnetsOfVersion(rest, version);
        forall i | IsFirstOfVersion(subnets, version, i)
          ensures IsFirstOfVersion(rest, version, i - 1)
        {
          forall j | 0 <= j < i - 1 ensures rest[j].version != version {
            assert rest[j] == subnets[j + 1];
          }
        }
        if k :| IsFirstOfVersion(rest, version, k) {
          forall j | 0 <= j < k + 1 ensures subnets[j].version != version {
            if j > 0 { assert subnets[j] == rest[j - 1]; }
          }
          assert IsFirstOfVersion(subnets, version, k + 1);
        }
      }
    }
  }

  /** The primary address is read unconditionally from the first subnet's first IP. */
  predicate HasPrimaryAddress(network: Network) {
    |network.subnets| > 0 && |network.subnets[0].ips| > 0
  }

  /** The nwfilter parameters of a bridged VIF. */
  function BridgeFilter(conf: Conf, instance: Instance, vif: Vif): FilterParams
    requires HasPrimaryAddress(vif.network)
  {
    var subnets := vif.network.subnets;
    var v4 := SubnetsOfVersion(subnets, 4);
    var v6 := SubnetsOfVersion(subnets, 6);
    FilterParams(
      name := "nova-instance-" + instance.name + "-" + RemoveColons(vif.address),
      ip := subnets[0].ips[0],
      dhcpServer := subnets[0].dhcpServer,
      raServer := if conf.useIpv6 && |v6| > 0 && v6[0].gateway.Some?
                  then Some(v6[0].gateway.value + "/128") else None,
      allowSameNet := conf.allowSameNetTraffic,
      ipv4Cidr := if conf.allowSameNetTraffic && |v4| > 0 then Some(v4[0].cidr) else None,
      ipv6Cidr := if conf.allowSameNetTraffic && conf.useIpv6 && |v6| > 0 then Some(v6[0].cidr) else None)
  }

  // ---------------------------------------------------------------- per-strategy configs

  /** get_config_bridge: a Linux bridge, with the firewall filter when one is required. */
  function BridgeConfig(kind: DriverKind, conf: Conf, instance: Instance, vif: Vif,
                        image: Option<ImageMeta>): (r: Result<IfaceConf>)
    ensures r.Ok? ==> r.value.backend == BridgeBackend(BridgeName(kind, conf, vif), VifDevname(vif, conf.nicNameLen))
    ensures r.Ok? ==> HasPrimaryAddress(vif.network)
    ensures r.Ok? ==> r.value.filter == if FirewallRequired(conf) then Some(BridgeFilter(conf, instance, vif)) else None
    ensures r.Err? <==> FrontendConfig(conf, vif, image).Err? || !HasPrimaryAddress(vif.network)
    ensures FrontendConfig(conf, vif, image).Err? ==> r == FrontendConfig(conf, vif, image)
    ensures r.Ok? ==> FrontendConfig(conf, vif, image) == Ok(r.value.(backend := NoBackend, filter := None))
  {
    match FrontendConfig(conf, vif, image)
    case Err(e) => Err(e)
    case Ok(front) =>
      if !HasPrimaryAddress(vif.network) then Err(LookupFailed("subnets[0].ips[0]"))
      else
        Ok(front.(backend := BridgeBackend(BridgeName(kind, conf, vif), VifDevname(vif, conf.nicNameLen)),
                  filter := if FirewallRequired(conf) then Some(BridgeFilter(conf, instance, vif)) else None))
  }

  /** get_config_ovs_ethernet: a tap device that plug wires into Open vSwitch. */
  function OvsEthernetConfig(conf: Conf, vif: Vif, image: Option<ImageMeta>): Result<IfaceConf> {
    match FrontendConfig(conf, vif, image)
    case Err(e) => Err(e)
    case Ok(front) => Ok(front.(backend := EthernetBackend(VifDevname(vif, conf.nicNameLen))))
  }

  /** get_config_ovs_bridge: an Open vSwitch virtual port managed by libvirt. */
  function OvsBridgeConfig(kind: DriverKind, conf: Conf, vif: Vif, image: Option<ImageMeta>): Result<IfaceConf> {
    match FrontendConfig(conf, vif, image)
    case Err(e) => Err(e)
    case Ok(front) =>
      Ok(front.(backend := OvsBackend(BridgeName(kind, conf, vif), OvsInterfaceId(kind, vif),
                                      VifDevname(vif, conf.nicNameLen))))
  }

  /** The copy of the VIF that the hybrid strategy configures: its bridge is the per-VIF one. */
  function HybridVif(vif: Vif, n: NameLen): Vif {
    vif.(network := vif.network.(bridge := Some(BrName(vif.id, n))))
  }

  /** get_config_ovs_hybrid: a bridge config for the per-VIF Linux bridge. */
  function OvsHybridConfig(kind: DriverKind, conf: Conf, instance: Instance, vif: Vif,
                           image: Option<ImageMeta>): Result<IfaceConf> {
    BridgeConfig(kind, conf, instance, HybridVif(vif, conf.nicNameLen), image)
  }

  /** How an Open vSwitch VIF is connected. */
  datatype OvsStrategy = Hybrid | VirtualPort | Ethernet

  /** The choice shared by get_config_ovs, plug_ovs and unplug_ovs: hybrid when a firewall
      must filter the traffic, else a native virtual port when libvirt supports it. */
  function OvsStrategyFor(conf: Conf, libvirtVersion: int): OvsStrategy {
    if FirewallRequired(conf) then Hybrid
    else if libvirtVersion >= LibvirtOvsVportVersion then VirtualPort
    else Ethernet
  }

  function OvsConfig(kind: DriverKind, conf: Conf, libvirtVersion: int, instance: Instance, vif: Vif,
                     image: Option<ImageMeta>): Result<IfaceConf> {
    match OvsStrategyFor(conf, libvirtVersion)
    case Hybrid => OvsHybridConfig(kind, conf, instance, vif, image)
    case VirtualPort => OvsBridgeConfig(kind, conf, vif, image)
    case Ethernet => OvsEthernetConfig(conf, vif, image)
  }

  /** get_config_802qbg: a direct 802.1Qbg port on the network's interface. */
  function Qbg8021Config(conf: Conf, vif: Vif, image: Option<ImageMeta>): Result<IfaceConf> {
    match FrontendConfig(conf, vif, image)
    case Err(e) => Err(e)
    case Ok(front) =>
      if vif.qbgParams.None? then Err(LookupFailed("qbg_params"))
      else
        var p := vif.qbgParams.value;
        Ok(front.(backend := Qbg8021Backend(vif.network.interface,
                                            (p.managerId, p.typeId, p.typeIdVersion, p.instanceId))))
  }

  /** get_config_802qbh: a direct 802.1Qbh port profile on the network's interface. */
  function Qbh8021Config(conf: Conf, vif: Vif, image: Option<ImageMeta>): Result<IfaceConf> {
    match FrontendConfig(conf, vif, image)
    case Err(e) => Err(e)
    case Ok(front) =>
      if vif.qbhParams.None? then Err(LookupFailed("qbh_params"))
      else Ok(front.(backend := Qbh8021Backend(vif.network.interface, vif.qbhParams.value.profileId)))
  }

  // ---------------------------------------------------------------- dispatch

  /** The per-type methods the generic driver dispatches to. */
  datatype VifRoute = BridgeRoute | OvsRoute | Qbg8021Route | Qbh8021Route

  /** The VIF type each route serves. */
  function RouteTypeName(route: VifRoute): string {
    match route
    case BridgeRoute => VifTypeBridge
    case OvsRoute => VifTypeOvs
    case Qbg8021Route => VifType8021Qbg
    case Qbh8021Route => VifType8021Qbh
  }

  /** The dispatch shared by get_config, plug and unplug of the generic driver. */
  function RouteFor(vifType: Option<string>): (r: Result<VifRoute>)
    ensures r.Err? <==> vifType.None? || vifType.value !in {VifTypeBridge, VifTypeOvs, VifType8021Qbg, VifType8021Qbh}
    ensures r.Err? ==> r.error == if vifType.None? then VifTypeMissing else VifTypeUnexpected(vifType.value)
    ensures r.Ok? ==> vifType == Some(RouteTypeName(r.value))
  {
    if vifType.None? then Err(VifTypeMissing)
    else if vifType.value == VifTypeBridge then Ok(BridgeRoute)
    else if vifType.value == VifTypeOvs then Ok(OvsRoute)
    else if vifType.value == VifType8021Qbg then Ok(Qbg8021Route)
    else if vifType.value == VifType8021Qbh then Ok(Qbh8021Route)
    else Err(VifTypeUnexpected(vifType.value))
  }

  /** What QuantumLinuxBridgeVIFDriver.get_config does to the caller's VIF first. */
  function MarkShouldCreateBridge(vif: Vif): Vif {
    vif.(network := vif.network.(shouldCreateBridge := true))
  }

  /** get_config of each driver class, given the libvirt version it would go by. */
  function Config(kind: DriverKind, conf: Conf, libvirtVersion: int, instance: Instance, vif: Vif,
                  image: Option<ImageMeta>): (r: Result<IfaceConf>)
    // the generic driver refuses a missing or unknown VIF type before anything else
    ensures kind.Generic? && RouteFor(vif.vifType).Err? ==> r == Err(RouteFor(vif.vifType).error)
    // the legacy drivers never look at the VIF type
    ensures !kind.Generic? ==> r.Err? ==> !r.error.VifTypeMissing? && !r.error.VifTypeUnexpected?
    // once the VIF type is accepted, a refused NIC model is the first error raised
    ensures (!kind.Generic? || RouteFor(vif.vifType).Ok?) && FrontendConfig(conf, vif, image).Err? ==>
              r == FrontendConfig(conf, vif, image)
  {
    match kind
    case Generic =>
      (match RouteFor(vif.vifType)
       case Err(e) => Err(e)
       case Ok(BridgeRoute) => BridgeConfig(kind, conf, instance, vif, image)
       case Ok(OvsRoute) => OvsConfig(kind, conf, libvirtVersion, instance, vif, image)
       case Ok(Qbg8021Route) => Qbg8021Config(conf, vif, image)
       case Ok(Qbh8021Route) => Qbh8021Config(conf, vif, image))
    case LegacyBridge => BridgeConfig(kind, conf, instance, vif, image)
    case LegacyOpenVswitch => OvsEthernetConfig(conf, vif, image)
    case LegacyHybridOvsBridge => OvsHybridConfig(kind, conf, instance, vif, image)
    case LegacyOvsVirtualPort => OvsBridgeConfig(kind, conf, vif, image)
    case QuantumLinuxBridge => BridgeConfig(kind, conf, instance, MarkShouldCreateBridge(vif), image)
  }

  // ---------------------------------------------------------------- host plumbing

  /** What plug_bridge does to the bridge: nothing, or make sure it exists, with a VLAN
      interface under it when the network asks for one. */
  datatype BridgeSetup = KeepBridge | EnsureBridge | EnsureVlanBridge

  /** plug_bridge prepares the bridge only for a network that asks for it and is not
      multi-host. */
  function BridgeSetupFor(network: Network): (r: BridgeSetup)
    ensures r != KeepBridge <==> network.shouldCreateBridge && !network.multiHost
    ensures r == EnsureVlanBridge <==> network.shouldCreateBridge && !network.multiHost && network.shouldCreateVlan
  {
    if !network.multiHost && network.shouldCreateBridge then
      (if network.shouldCreateVlan then EnsureVlanBridge else EnsureBridge)
    else KeepBridge
  }

  /** The host-side strategy plug and unplug carry out, with the devices it involves; the
      shell commands themselves are not modelled. Unplug removes what plug created for the
      VIF alone: a Linux bridge, which other VIFs share, stays in place. An Open vSwitch
      port also records the interface id and MAC address plug registers it with; unplug
      needs only the bridge and the device. */
  datatype HostPlumbing =
    | LinuxBridge(bridge: Option<string>, setup: BridgeSetup)  // plug_bridge / unplug_bridge
    | OvsTapPort(ovsBridge: Option<string>, tap: string, // tap device as an Open vSwitch port
                 interfaceId: Option<string>, mac: string)
    | OvsVirtualPort                                   // nothing to do: libvirt manages the port
    | HybridBridge(ovsBridge: Option<string>, linuxBridge: string, bridgeVeth: string, ovsVeth: string,
                   interfaceId: Option<string>, mac: string)
    | Qbg8021Port                                      // nothing to do on the host
    | Qbh8021Port                                      // nothing to do on the host

  function OvsTapPlumbing(kind: DriverKind, conf: Conf, vif: Vif): HostPlumbing {
    OvsTapPort(BridgeName(kind, conf, vif), VifDevname(vif, conf.nicNameLen), OvsInterfaceId(kind, vif), vif.address)
  }

  function HybridPlumbing(kind: DriverKind, conf: Conf, vif: Vif): HostPlumbing {
    var veths := VethPairNames(vif.id, conf.nicNameLen);
    HybridBridge(BridgeName(kind, conf, vif), BrName(vif.id, conf.nicNameLen), veths.0, veths.1,
                 OvsInterfaceId(kind, vif), vif.address)
  }

  /** plug_ovs / unplug_ovs: the same strategy choice as get_config_ovs. */
  function OvsPlumbing(kind: DriverKind, conf: Conf, libvirtVersion: int, vif: Vif): HostPlumbing {
    match OvsStrategyFor(conf, libvirtVersion)
    case Hybrid => HybridPlumbing(kind, conf, vif)
    case VirtualPort => OvsVirtualPort
    case Ethernet => OvsTapPlumbing(kind, conf, vif)
  }

  /** The plumbing plug creates and unplug removes, for each driver class. */
  function PlumbingFor(kind: DriverKind, conf: Conf, libvirtVersion: int, vif: Vif): (r: Result<HostPlumbing>)
    ensures r.Err? <==> kind.Generic? && RouteFor(vif.vifType).Err?
    ensures r.Err? ==> r.error == RouteFor(vif.vifType).error
  {
    match kind
    case Generic =>
      (match RouteFor(vif.vifType)
       case Err(e) => Err(e)
       case Ok(BridgeRoute) => Ok(LinuxBridge(BridgeName(kind, conf, vif), BridgeSetupFor(vif.network)))
       case Ok(OvsRoute) => Ok(OvsPlumbing(kind, conf, libvirtVersion, vif))
       case Ok(Qbg8021Route) => Ok(Qbg8021Port)
       case Ok(Qbh8021Route) => Ok(Qbh8021Port))
    case LegacyBridge => Ok(LinuxBridge(BridgeName(kind, conf, vif), BridgeSetupFor(vif.network)))
    case LegacyOpenVswitch => Ok(OvsTapPlumbing(kind, conf, vif))
    case LegacyHybridOvsBridge => Ok(HybridPlumbing(kind, conf, vif))
    case LegacyOvsVirtualPort => Ok(OvsVirtualPort)
    case QuantumLinuxBridge => Ok(LinuxBridge(BridgeName(kind, conf, vif), BridgeSetupFor(vif.network)))
  }

  // ---------------------------------------------------------------- libvirt version cache

  /** Whether an operation of the driver asks has_libvirt_version: only the generic
      driver, only for Open vSwitch VIFs, and only when no firewall forces the hybrid path. */
  predicate ConsultsVersion(kind: DriverKind, conf: Conf, vif: Vif) {
    kind.Generic? && vif.vifType == Some(VifTypeOvs) && !FirewallRequired(conf)
  }

  /** The version has_libvirt_version goes by: the cached one, else what the connection reports. */
  function EffectiveVersion(cached: Option<int>, reported: int): int {
    cached.GetOr(reported)
  }
}
