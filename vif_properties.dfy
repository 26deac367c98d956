/**
 * Properties relating the operations of the VIF drivers: the firewall filter parameters,
 * the agreement of get_config, plug and unplug on the VIFs they refuse and on the strategy
 * they pick, the legacy drivers' fixed strategies and fallbacks, and where the libvirt
 * version matters.
 */
module VifProperties {
  import opened Outcomes
  import opened NetworkModel
  import opened GuestConfig
  import opened VifNames
  import opened VifSpec

  /** A string without colons, such as a MAC address already written without them, is
      left as it is. */
  lemma {:induction false} RemoveColonsKeepsColonFree(s: string)
    requires ':' !in s
    ensures RemoveColons(s) == s
  {
    if s != [] {
      assert s[0] != ':' && ':' !in s[1..];
      RemoveColonsKeepsColonFree(s[1..]);
    }
  }

  /** Only the colons are removed: the result is shorter by exactly their number. */
  lemma {:induction false} RemoveColonsDropsOnlyColons(s: string)
    ensures |RemoveColons(s)| == |s| - multiset(s)[':']
  {
    if s != [] {
      assert s == [s[0]] + s[1..];
      RemoveColonsDropsOnlyColons(s[1..]);
    }
  }

  /** Removing the colons works piecewise. */
  lemma {:induction false} RemoveColonsDistributes(a: string, b: string)
    ensures RemoveColons(a + b) == RemoveColons(a) + RemoveColons(b)
  {
    if a == [] {
      assert a + b == b;
    } else {
      var head := if a[0] == ':' then [] else [a[0]];
      assert RemoveColons(a + b) == head + RemoveColons(a[1..] + b) by {
        assert (a + b)[0] == a[0] && (a + b)[1..] == a[1..] + b;
      }
      RemoveColonsDistributes(a[1..], b);
      assert RemoveColons(a) == head + RemoveColons(a[1..]);
    }
  }

  /** What each filter parameter of a bridged VIF is, in terms of its subnets. */
  lemma FilterParameters(conf: Conf, instance: Instance, vif: Vif, f: FilterParams)
    requires HasPrimaryAddress(vif.network) && f == BridgeFilter(conf, instance, vif)
    ensures f.name == "nova-instance-" + instance.name + "-" + RemoveColons(vif.address)
    ensures ':' !in f.name[|"nova-instance-" + instance.name + "-"|..]
    ensures f.ip == vif.network.subnets[0].ips[0]
    ensures f.dhcpServer == vif.network.subnets[0].dhcpServer
    ensures f.allowSameNet == conf.allowSameNetTraffic
    // the router-advertisement server: the first IPv6 subnet's gateway, when IPv6 is on
    ensures f.raServer.Some? <==>
              conf.useIpv6 && exists i :: IsFirstOfVersion(vif.network.subnets, 6, i)
                                          && vif.network.subnets[i].gateway.Some?
    ensures forall i :: IsFirstOfVersion(vif.network.subnets, 6, i) && f.raServer.Some? ==>
              f.raServer.value == vif.network.subnets[i].gateway.value + "/128"
    // the project networks: only when same-network traffic is allowed
    ensures f.ipv4Cidr.Some? <==>
              conf.allowSameNetTraffic && exists i :: IsFirstOfVersion(vif.network.subnets, 4, i)
    ensures forall i :: IsFirstOfVersion(vif.network.subnets, 4, i) && f.ipv4Cidr.Some? ==>
              f.ipv4Cidr.value == vif.network.subnets[i].cidr
    ensures f.ipv6Cidr.Some? <==>
              conf.allowSameNetTraffic && conf.useIpv6 && exists i :: IsFirstOfVersion(vif.network.subnets, 6, i)
    ensures forall i :: IsFirstOfVersion(vif.network.subnets, 6, i) && f.ipv6Cidr.Some? ==>
              f.ipv6Cidr.value == vif.network.subnets[i].cidr
  {
    FirstOfVersion(vif.network.subnets, 4);
    FirstOfVersion(vif.network.subnets, 6);
    var prefix := "nova-instance-" + instance.name + "-";
    assert f.name[|prefix|..] == RemoveColons(vif.address);
  }

  /** The generic driver's get_config, plug and unplug refuse exactly the VIFs whose type
      is missing or unknown, with the same exception. */
  lemma GenericRefusesSameVifs(conf: Conf, version: int, instance: Instance, vif: Vif, image: Option<ImageMeta>)
    ensures PlumbingFor(Generic, conf, version, vif).Err? <==>
              vif.vifType.None? || vif.vifType.value !in {VifTypeBridge, VifTypeOvs, VifType8021Qbg, VifType8021Qbh}
    ensures PlumbingFor(Generic, conf, version, vif).Err? ==>
              Config(Generic, conf, version, instance, vif, image) == Err(PlumbingFor(Generic, conf, version, vif).error)
    ensures var c := Config(Generic, conf, version, instance, vif, image);
            c.Err? && (c.error.VifTypeMissing? || c.error.VifTypeUnexpected?) <==>
              PlumbingFor(Generic, conf, version, vif).Err?
  {
    var c := Config(Generic, conf, version, instance, vif, image);
    if RouteFor(vif.vifType).Ok? && c.Err? {
      assert !c.error.VifTypeMissing? && !c.error.VifTypeUnexpected? by {
        match RouteFor(vif.vifType).value
        case BridgeRoute =>
        case OvsRoute =>
        case Qbg8021Route =>
        case Qbh8021Route =>
      }
    }
  }

  /** A dispatch on a known VIF type goes to the method for exactly that type. */
  lemma RouteRoundTrip(route: VifRoute)
    ensures RouteFor(Some(RouteTypeName(route))) == Ok(route)
  {
  }

  /** The host side plug and unplug act on agrees with the interface get_config hands to
      libvirt. */
  ghost predicate Consistent(p: HostPlumbing, b: Backend) {
    match p
    case LinuxBridge(bridge, _) => b.BridgeBackend? && b.bridge == bridge
    case OvsTapPort(_, tap, _, _) => b == EthernetBackend(tap)
    case OvsVirtualPort => b.OvsBackend?
    case HybridBridge(_, linuxBridge, _, _, _, _) => b.BridgeBackend? && b.bridge == Some(linuxBridge)
    case Qbg8021Port => b.Qbg8021Backend?
    case Qbh8021Port => b.Qbh8021Backend?
  }

  /** Whatever the driver class, get_config and plug/unplug choose the same strategy and
      the same devices: the guest is attached to the bridge or tap device plug prepares. */
  lemma ConfigAgreesWithPlumbing(kind: DriverKind, conf: Conf, version: int, instance: Instance,
                                 vif: Vif, image: Option<ImageMeta>)
    requires Config(kind, conf, version, instance, vif, image).Ok?
    ensures PlumbingFor(kind, conf, version, vif).Ok?
    ensures Consistent(PlumbingFor(kind, conf, version, vif).value,
                       Config(kind, conf, version, instance, vif, image).value.backend)
  {
    var n := conf.nicNameLen;
    var hv := HybridVif(vif, n);
    assert BridgeName(kind, conf, hv) == Some(BrName(vif.id, n));
    assert BridgeName(kind, conf, MarkShouldCreateBridge(vif)) == BridgeName(kind, conf, vif);
  }

  /** The hybrid strategy attaches the guest to the VIF's own bridge, whatever bridge the
      caller's network names, and the devices it creates are pairwise distinct. */
  lemma HybridUsesPerVifBridge(kind: DriverKind, conf: Conf, instance: Instance, vif: Vif,
                               image: Option<ImageMeta>, otherBridge: Option<string>)
    ensures var r := OvsHybridConfig(kind, conf, instance, vif, image);
            r.Ok? ==> r.value.backend == BridgeBackend(Some(BrName(vif.id, conf.nicNameLen)),
                                                       VifDevname(vif, conf.nicNameLen))
    ensures OvsHybridConfig(kind, conf, instance, vif.(network := vif.network.(bridge := otherBridge)), image)
            == OvsHybridConfig(kind, conf, instance, vif, image)
    ensures HybridPlumbing(kind, conf, vif).linuxBridge != HybridPlumbing(kind, conf, vif).bridgeVeth
    ensures HybridPlumbing(kind, conf, vif).linuxBridge != HybridPlumbing(kind, conf, vif).ovsVeth
    ensures HybridPlumbing(kind, conf, vif).bridgeVeth != HybridPlumbing(kind, conf, vif).ovsVeth
  {
    var n := conf.nicNameLen;
    var other := vif.(network := vif.network.(bridge := otherBridge));
    assert HybridVif(other, n) == HybridVif(vif, n);
    assert BridgeName(kind, conf, HybridVif(vif, n)) == Some(BrName(vif.id, n));
    HybridDevicesDistinct(vif.id, n);
  }

  /** The Open vSwitch strategy: hybrid whenever a firewall must filter, whatever libvirt
      offers; otherwise the native virtual port exactly from libvirt 0.9.11 on. */
  lemma OvsStrategyRule(conf: Conf, v1: int, v2: int)
    ensures FirewallRequired(conf) ==> OvsStrategyFor(conf, v1) == Hybrid
    ensures !FirewallRequired(conf) ==> (OvsStrategyFor(conf, v1) == VirtualPort <==> v1 >= LibvirtOvsVportVersion)
    ensures !FirewallRequired(conf) ==> (OvsStrategyFor(conf, v1) == Ethernet <==> v1 < LibvirtOvsVportVersion)
    ensures v1 <= v2 && OvsStrategyFor(conf, v1) == VirtualPort ==> OvsStrategyFor(conf, v2) == VirtualPort
  {
  }

  /** The libvirt version influences an operation only where has_libvirt_version is asked,
      which is why the cache is filled exactly there. */
  lemma VersionMattersOnlyWhenConsulted(kind: DriverKind, conf: Conf, v1: int, v2: int,
                                        instance: Instance, vif: Vif, image: Option<ImageMeta>)
    requires !ConsultsVersion(kind, conf, vif)
    ensures Config(kind, conf, v1, instance, vif, image) == Config(kind, conf, v2, instance, vif, image)
    ensures PlumbingFor(kind, conf, v1, vif) == PlumbingFor(kind, conf, v2, vif)
  {
  }

  /** The legacy drivers use one fixed strategy whatever the VIF type, and never fail to
      plug or unplug. */
  lemma LegacyIgnoresVifType(kind: DriverKind, conf: Conf, version: int, instance: Instance,
                             vif: Vif, image: Option<ImageMeta>, vifType: Option<string>)
    requires !kind.Generic?
    ensures Config(kind, conf, version, instance, vif.(vifType := vifType), image)
            == Config(kind, conf, version, instance, vif, image)
    ensures PlumbingFor(kind, conf, version, vif.(vifType := vifType)) == PlumbingFor(kind, conf, version, vif)
    ensures PlumbingFor(kind, conf, version, vif).Ok?
  {
    var other := vif.(vifType := vifType);
    var n := conf.nicNameLen;
    assert VifDevname(other, n) == VifDevname(vif, n);
    assert BridgeName(kind, conf, other) == BridgeName(kind, conf, vif);
    match kind
    case LegacyBridge =>
      BridgeConfigIgnoresVifType(kind, conf, instance, vif, image, vifType);
    case LegacyOpenVswitch =>
    case LegacyHybridOvsBridge =>
      assert HybridVif(other, n) == HybridVif(vif, n).(vifType := vifType);
      BridgeConfigIgnoresVifType(kind, conf, instance, HybridVif(vif, n), image, vifType);
    case LegacyOvsVirtualPort =>
    case QuantumLinuxBridge =>
      assert MarkShouldCreateBridge(other) == MarkShouldCreateBridge(vif).(vifType := vifType);
      BridgeConfigIgnoresVifType(kind, conf, instance, MarkShouldCreateBridge(vif), image, vifType);
  }

  /** get_config_bridge reads only the VIF's id, address, devname and network. */
  lemma BridgeConfigIgnoresVifType(kind: DriverKind, conf: Conf, instance: Instance, vif: Vif,
                                   image: Option<ImageMeta>, vifType: Option<string>)
    ensures BridgeConfig(kind, conf, instance, vif.(vifType := vifType), image)
            == BridgeConfig(kind, conf, instance, vif, image)
  {
    FrontendReadsAddressOnly(conf, vif.(vifType := vifType), vif, image);
  }

  lemma FrontendReadsAddressOnly(conf: Conf, v1: Vif, v2: Vif, image: Option<ImageMeta>)
    requires v1.address == v2.address
    ensures FrontendConfig(conf, v1, image) == FrontendConfig(conf, v2, image)
  {
  }

  /** The fallbacks of the legacy drivers for the bridge and the interface id. */
  lemma LegacyFallbacks(kind: DriverKind, conf: Conf, vif: Vif)
    ensures kind.IsOvsFamily() ==>
              BridgeName(kind, conf, vif) == Some(if Truthy(vif.network.bridge) then vif.network.bridge.value
                                                  else conf.ovsBridge)
              && OvsInterfaceId(kind, vif) == Some(if Truthy(vif.ovsInterfaceId) then vif.ovsInterfaceId.value
                                                   else vif.id)
    // the Quantum Linux bridge driver always names a bridge, its own when the network has none
    ensures kind.QuantumLinuxBridge? ==>
              Truthy(BridgeName(kind, conf, vif))
              && (!Truthy(vif.network.bridge) ==>
                    BridgeName(kind, conf, vif) == Some(QuantumBridgeName(vif.network.id, conf.nicNameLen)))
    // the generic driver and the legacy bridge driver pass the VIF's own values through
    ensures kind.Generic? || kind.LegacyBridge? ==>
              BridgeName(kind, conf, vif) == vif.network.bridge && OvsInterfaceId(kind, vif) == vif.ovsInterfaceId
  {
  }

  /** The Open vSwitch ports plug creates carry the driver's interface id and the VIF's MAC
      address; the legacy Open vSwitch drivers fall back to the VIF id. */
  lemma OvsPortsCarryInterfaceId(kind: DriverKind, conf: Conf, version: int, vif: Vif)
    ensures var p := PlumbingFor(kind, conf, version, vif);
            p.Ok? && (p.value.OvsTapPort? || p.value.HybridBridge?) ==>
              p.value.interfaceId == OvsInterfaceId(kind, vif) && p.value.mac == vif.address
    ensures kind.LegacyOpenVswitch? || kind.LegacyHybridOvsBridge? ==>
              PlumbingFor(kind, conf, version, vif).value.interfaceId
              == Some(if Truthy(vif.ovsInterfaceId) then vif.ovsInterfaceId.value else vif.id)
  {
  }

  /** QuantumLinuxBridgeVIFDriver.get_config marks the caller's network so that a later plug
      creates the bridge libvirt is told to use, unless the network is multi-host. Without
      the mark, plug goes by what the network asked for. */
  lemma QuantumConfigPreparesBridge(conf: Conf, version: int, vif: Vif)
    ensures var p := PlumbingFor(QuantumLinuxBridge, conf, version, MarkShouldCreateBridge(vif));
            p.Ok? && p.value.LinuxBridge? && (p.value.setup != KeepBridge <==> !vif.network.multiHost)
    ensures var p := PlumbingFor(QuantumLinuxBridge, conf, version, vif);
            p.Ok? && p.value.LinuxBridge?
            && (p.value.setup != KeepBridge <==> vif.network.shouldCreateBridge && !vif.network.multiHost)
    ensures PlumbingFor(QuantumLinuxBridge, conf, version, MarkShouldCreateBridge(vif)).value.bridge
            == PlumbingFor(QuantumLinuxBridge, conf, version, vif).value.bridge
  {
  }
}
