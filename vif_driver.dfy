/**
 * The VIF driver objects: one class for all six driver classes, told apart by `kind`, with
 * the libvirt version each object caches. Each method follows its Python counterpart step
 * by step and is proved against the function of module VifSpec that gives its meaning.
 * The version the connection reports is passed in as `reported`.
 */
module VifDriver {
  import opened Outcomes
  import opened NetworkModel
  import opened GuestConfig
  import opened VifModels
  import opened VifNames
  import opened VifSpec
  import opened VifProperties

  /** A VIF dictionary as the caller holds it: get_config may change it in place. */
  class VifRef {
    var value: Vif

    constructor (v: Vif)
      ensures value == v
    {
      value := v;
    }
  }

  /** A configuration object built by a method holds what the specification says, and a
      method fails exactly with the specified exception. */
  ghost predicate Realizes(r: Result<GuestInterface>, spec: Result<IfaceConf>)
    reads if r.Ok? then {r.value} else {}
  {
    match r
    case Ok(g) => spec.Ok? && g.Value() == spec.value
    case Err(e) => spec == Err(e)
  }

  class LibvirtVifDriver {
    const kind: DriverKind
    const conf: Conf
    /** The version has_libvirt_version fetched first, None until it is asked. */
    var libvirtVersion: Option<int>

    constructor (kind: DriverKind, conf: Conf)
      ensures this.kind == kind && this.conf == conf && libvirtVersion.None?
    {
      this.kind := kind;
      this.conf := conf;
      libvirtVersion := None;
    }

    /** has_libvirt_version: asks the connection once, then goes by the cached answer. */
    method HasLibvirtVersion(want: int, reported: int) returns (b: bool)
      modifies this`libvirtVersion
      ensures libvirtVersion == Some(EffectiveVersion(old(libvirtVersion), reported))
      ensures old(libvirtVersion).Some? ==> libvirtVersion == old(libvirtVersion)
      ensures b <==> EffectiveVersion(old(libvirtVersion), reported) >= want
    {
      if libvirtVersion.None? {
        libvirtVersion := Some(reported);
      }
      b := libvirtVersion.value >= want;
    }

    /** The base get_config: a new configuration object with the guest frontend set. */
    method BaseGetConfig(instance: Instance, vif: Vif, image: Option<ImageMeta>) returns (r: Result<GuestInterface>)
      ensures r.Ok? ==> fresh(r.value)
      ensures Realizes(r, FrontendConfig(conf, vif, image))
    {
      var model: Option<string> := None;
      var driver: Option<string> := None;
      if image.Some? && "vif_model" in image.value.properties {
        model := Some(image.value.properties["vif_model"]);
      }
      if model.None? && conf.libvirtType in {"kvm", "qemu"} && conf.useVirtioForBridges {
        model := Some("virtio");
      }
      if model == Some("virtio") && conf.libvirtType == "qemu" {
        driver := Some("qemu");
      }
      var valid := IsVifModelValid(conf.libvirtType, model);
      if valid.Err? {
        return Err(valid.error);
      }
      if !valid.value {
        return Err(UnsupportedHardware(model, conf.libvirtType));
      }
      var g := new GuestInterface();
      g.SetFrontend(vif.address, model, driver);
      return Ok(g);
    }

    /** get_config_bridge: the bridge backend and, when a firewall is required, the filter. */
    method GetConfigBridge(instance: Instance, vif: Vif, image: Option<ImageMeta>) returns (r: Result<GuestInterface>)
      ensures r.Ok? ==> fresh(r.value)
      ensures Realizes(r, BridgeConfig(kind, conf, instance, vif, image))
    {
      r := BaseGetConfig(instance, vif, image);
      if r.Err? {
        return;
      }
      var g := r.value;
      g.SetBridgeBackend(BridgeName(kind, conf, vif), VifDevname(vif, conf.nicNameLen));

      var name := "nova-instance-" + instance.name + "-" + RemoveColons(vif.address);
      var subnets := vif.network.subnets;
      if !HasPrimaryAddress(vif.network) {
        return Err(LookupFailed("subnets[0].ips[0]"));
      }
      var primaryAddr := subnets[0].ips[0];
      var dhcpServer, raServer, ipv4Cidr, ipv6Cidr := None, None, None, None;
      dhcpServer := subnets[0].dhcpServer;
      if conf.useIpv6 {
        var v6 := SubnetsOfVersion(subnets, 6);
        if |v6| > 0 && v6[0].gateway.Some? {
          raServer := Some(v6[0].gateway.value + "/128");
        }
      }
      if conf.allowSameNetTraffic {
        var v4 := SubnetsOfVersion(subnets, 4);
        var v6 := SubnetsOfVersion(subnets, 6);
        if |v4| > 0 {
          ipv4Cidr := Some(v4[0].cidr);
        }
        if conf.useIpv6 && |v6| > 0 {
          ipv6Cidr := Some(v6[0].cidr);
        }
      }
      if FirewallRequired(conf) {
        g.SetFilter(FilterParams(name, primaryAddr, dhcpServer, raServer, conf.allowSameNetTraffic,
                                 ipv4Cidr, ipv6Cidr));
      }
      return Ok(g);
    }

    /** get_config_ovs_ethernet: a plain tap device. */
    method GetConfigOvsEthernet(instance: Instance, vif: Vif, image: Option<ImageMeta>) returns (r: Result<GuestInterface>)
      ensures r.Ok? ==> fresh(r.value)
      ensures Realizes(r, OvsEthernetConfig(conf, vif, image))
    {
      r := BaseGetConfig(instance, vif, image);
      if r.Ok? {
        r.value.SetEthernetBackend(VifDevname(vif, conf.nicNameLen));
      }
    }

    /** get_config_ovs_bridge: an Open vSwitch virtual port. */
    method GetConfigOvsBridge(instance: Instance, vif: Vif, image: Option<ImageMeta>) returns (r: Result<GuestInterface>)
      ensures r.Ok? ==> fresh(r.value)
      ensures Realizes(r, OvsBridgeConfig(kind, conf, vif, image))
    {
      r := BaseGetConfig(instance, vif, image);
      if r.Ok? {
        r.value.SetOvsBackend(BridgeName(kind, conf, vif), OvsInterfaceId(kind, vif), VifDevname(vif, conf.nicNameLen));
      }
    }

    /** get_config_ovs_hybrid: the bridge configuration of a copy of the VIF whose bridge is
        the per-VIF one; the caller's VIF is left alone. */
    method GetConfigOvsHybrid(instance: Instance, vif: Vif, image: Option<ImageMeta>) returns (r: Result<GuestInterface>)
      ensures r.Ok? ==> fresh(r.value)
      ensures Realizes(r, OvsHybridConfig(kind, conf, instance, vif, image))
    {
      var newVif := vif.(network := vif.network.(bridge := Some(BrName(vif.id, conf.nicNameLen))));
      r := GetConfigBridge(instance, newVif, image);
    }

    /** get_config_ovs: hybrid when a firewall is required, else by the libvirt version. */
    method GetConfigOvs(instance: Instance, vif: Vif, image: Option<ImageMeta>, reported: int)
      returns (r: Result<GuestInterface>)
      modifies this`libvirtVersion
      ensures libvirtVersion == if FirewallRequired(conf) then old(libvirtVersion)
                                else Some(EffectiveVersion(old(libvirtVersion), reported))
      ensures r.Ok? ==> fresh(r.value)
      ensures Realizes(r, OvsConfig(kind, conf, EffectiveVersion(old(libvirtVersion), reported), instance, vif, image))
    {
      if FirewallRequired(conf) {
        r := GetConfigOvsHybrid(instance, vif, image);
      } else {
        var virtualPort := HasLibvirtVersion(LibvirtOvsVportVersion, reported);
        if virtualPort {
          r := GetConfigOvsBridge(instance, vif, image);
        } else {
          r := GetConfigOvsEthernet(instance, vif, image);
        }
      }
    }

    /** get_config_802qbg: the network's interface with the VIF's 802.1Qbg parameters. */
    method GetConfig802Qbg(instance: Instance, vif: Vif, image: Option<ImageMeta>) returns (r: Result<GuestInterface>)
      ensures r.Ok? ==> fresh(r.value)
      ensures Realizes(r, Qbg8021Config(conf, vif, image))
    {
      r := BaseGetConfig(instance, vif, image);
      if r.Err? {
        return;
      }
      if vif.qbgParams.None? {
        return Err(LookupFailed("qbg_params"));
      }
      var params := vif.qbgParams.value;
      r.value.Set8021QbgBackend(vif.network.interface, params.managerId, params.typeId,
                                params.typeIdVersion, params.instanceId);
    }

    /** get_config_802qbh: the network's interface with the VIF's 802.1Qbh profile. */
    method GetConfig802Qbh(instance: Instance, vif: Vif, image: Option<ImageMeta>) returns (r: Result<GuestInterface>)
      ensures r.Ok? ==> fresh(r.value)
      ensures Realizes(r, Qbh8021Config(conf, vif, image))
    {
      r := BaseGetConfig(instance, vif, image);
      if r.Err? {
        return;
      }
      if vif.qbhParams.None? {
        return Err(LookupFailed("qbh_params"));
      }
      r.value.Set8021QbhBackend(vif.network.interface, vif.qbhParams.value.profileId);
    }

    /** get_config of the driver class: the generic driver dispatches on the VIF type, each
        legacy driver always uses its own strategy. Only the Quantum Linux bridge driver
        changes the caller's VIF, and only the generic driver may consult libvirt. */
    method GetConfig(instance: Instance, v: VifRef, image: Option<ImageMeta>, reported: int)
      returns (r: Result<GuestInterface>)
      modifies this`libvirtVersion, v
      ensures v.value == if kind.QuantumLinuxBridge? then MarkShouldCreateBridge(old(v.value)) else old(v.value)
      ensures libvirtVersion == if ConsultsVersion(kind, conf, old(v.value))
                                then Some(EffectiveVersion(old(libvirtVersion), reported))
                                else old(libvirtVersion)
      ensures r.Ok? ==> fresh(r.value)
      ensures Realizes(r, Config(kind, conf, EffectiveVersion(old(libvirtVersion), reported), instance, old(v.value), image))
    {
      var vif := v.value;
      match kind
      case Generic =>
        if vif.vifType.None? {
          return Err(VifTypeMissing);
        }
        var vifType := vif.vifType.value;
        if vifType == VifTypeBridge {
          r := GetConfigBridge(instance, vif, image);
        } else if vifType == VifTypeOvs {
          r := GetConfigOvs(instance, vif, image, reported);
        } else if vifType == VifType8021Qbg {
          r := GetConfig802Qbg(instance, vif, image);
        } else if vifType == VifType8021Qbh {
          r := GetConfig802Qbh(instance, vif, image);
        } else {
          r := Err(VifTypeUnexpected(vifType));
        }
      case LegacyBridge =>
        r := GetConfigBridge(instance, vif, image);
      case LegacyOpenVswitch =>
        r := GetConfigOvsEthernet(instance, vif, image);
      case LegacyHybridOvsBridge =>
        r := GetConfigOvsHybrid(instance, vif, image);
      case LegacyOvsVirtualPort =>
        r := GetConfigOvsBridge(instance, vif, image);
      case QuantumLinuxBridge =>
        if !vif.network.shouldCreateBridge {
          v.value := vif.(network := vif.network.(shouldCreateBridge := true));
        }
        r := GetConfigBridge(instance, v.value, image);
    }

    /** plug_ovs / unplug_ovs: the same choice as get_config_ovs. */
    method PlumbingOvs(vif: Vif, reported: int) returns (p: HostPlumbing)
      modifies this`libvirtVersion
      ensures libvirtVersion == if FirewallRequired(conf) then old(libvirtVersion)
                                else Some(EffectiveVersion(old(libvirtVersion), reported))
      ensures p == OvsPlumbing(kind, conf, EffectiveVersion(old(libvirtVersion), reported), vif)
    {
      if FirewallRequired(conf) {
        var veths := VethPairNames(vif.id, conf.nicNameLen);
        p := HybridBridge(BridgeName(kind, conf, vif), BrName(vif.id, conf.nicNameLen), veths.0, veths.1,
                            OvsInterfaceId(kind, vif), vif.address);
      } else {
        var virtualPort := HasLibvirtVersion(LibvirtOvsVportVersion, reported);
        if virtualPort {
          p := OvsVirtualPort;
        } else {
          p := OvsTapPort(BridgeName(kind, conf, vif), VifDevname(vif, conf.nicNameLen), OvsInterfaceId(kind, vif),
                          vif.address);
        }
      }
    }

    /** plug and unplug of the driver class: the plumbing they create or remove. Both
        dispatch the same way, so one method serves both. */
    method Plumbing(vif: Vif, reported: int) returns (r: Result<HostPlumbing>)
      modifies this`libvirtVersion
      ensures libvirtVersion == if ConsultsVersion(kind, conf, vif)
                                then Some(EffectiveVersion(old(libvirtVersion), reported))
                                else old(libvirtVersion)
      ensures r == PlumbingFor(kind, conf, EffectiveVersion(old(libvirtVersion), reported), vif)
    {
      var bridge := LinuxBridge(BridgeName(kind, conf, vif), BridgeSetupFor(vif.network));
      match kind
      case Generic =>
        if vif.vifType.None? {
          return Err(VifTypeMissing);
        }
        var vifType := vif.vifType.value;
        if vifType == VifTypeBridge {
          r := Ok(bridge);
        } else if vifType == VifTypeOvs {
          var p := PlumbingOvs(vif, reported);
          r := Ok(p);
        } else if vifType == VifType8021Qbg {
          r := Ok(Qbg8021Port);
        } else if vifType == VifType8021Qbh {
          r := Ok(Qbh8021Port);
        } else {
          r := Err(VifTypeUnexpected(vifType));
        }
      case LegacyBridge =>
        r := Ok(bridge);
      case LegacyOpenVswitch =>
        r := Ok(OvsTapPort(BridgeName(kind, conf, vif), VifDevname(vif, conf.nicNameLen), OvsInterfaceId(kind, vif),
                          vif.address));
      case LegacyHybridOvsBridge =>
        var veths := VethPairNames(vif.id, conf.nicNameLen);
        r := Ok(HybridBridge(BridgeName(kind, conf, vif), BrName(vif.id, conf.nicNameLen), veths.0, veths.1,
                            OvsInterfaceId(kind, vif), vif.address));
      case LegacyOvsVirtualPort =>
        r := Ok(OvsVirtualPort);
      case QuantumLinuxBridge =>
        r := Ok(bridge);
    }
  }

  /** A VIF's life on one driver object: its configuration, then plug, then later unplug.
      Because the libvirt version is cached, unplug tears down what plug set up even when
      the connection reports another version by then, and plug agrees with the
      configuration libvirt was given. */
  method ConfigurePlugUnplug(d: LibvirtVifDriver, instance: Instance, v: VifRef, image: Option<ImageMeta>,
                             atConfig: int, atPlug: int, atUnplug: int)
      returns (c: Result<GuestInterface>, plugged: Result<HostPlumbing>, unplugged: Result<HostPlumbing>)
    modifies d, v
    ensures c.Ok? ==> plugged.Ok? && Consistent(plugged.value, c.value.backend)
    ensures unplugged == plugged
    ensures c.Err? && d.kind.Generic? && RouteFor(old(v.value).vifType).Err? ==> plugged.Err?
    ensures v.value == if d.kind.QuantumLinuxBridge? then MarkShouldCreateBridge(old(v.value)) else old(v.value)
    ensures d.libvirtVersion == if ConsultsVersion(d.kind, d.conf, old(v.value))
                                then Some(EffectiveVersion(old(d.libvirtVersion), atConfig))
                                else old(d.libvirtVersion)
  {
    c := d.GetConfig(instance, v, image, atConfig);
    ghost var version := EffectiveVersion(old(d.libvirtVersion), atConfig);
    ghost var vif0 := old(v.value);
    assert ConsultsVersion(d.kind, d.conf, vif0) <==> ConsultsVersion(d.kind, d.conf, v.value);
    plugged := d.Plumbing(v.value, atPlug);
    unplugged := d.Plumbing(v.value, atUnplug);
    assert plugged == PlumbingFor(d.kind, d.conf, version, v.value) by {
      if !ConsultsVersion(d.kind, d.conf, vif0) {
        VersionMattersOnlyWhenConsulted(d.kind, d.conf, version, EffectiveVersion(old(d.libvirtVersion), atPlug),
                                        instance, v.value, image);
      }
    }
    if c.Ok? {
      ConfigAgreesWithPlumbing(d.kind, d.conf, version, instance, vif0, image);
      if d.kind.QuantumLinuxBridge? {
        QuantumConfigPreparesBridge(d.conf, version, vif0);
      }
    }
  }
}
