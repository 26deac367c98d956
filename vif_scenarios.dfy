/**
 * The situations the driver's unit tests set up (nova/tests/test_libvirt_vif.py), stated
 * on the model: the same VIFs, networks and options, with the 14-character limit on
 * interface names, and what each test expects of the result.
 */
module VifScenarios {
  import opened Outcomes
  import opened NetworkModel
  import opened GuestConfig
  import opened VifModels
  import opened VifNames
  import opened VifSpec
  import opened VifDriver

  const NameLimit: NameLen := 14

  const Subnet4 := Subnet(4, "101.168.1.0/24", Some("10.0.0.1"), ["101.168.1.9"], Some("191.168.1.1"))
  const Subnet6 := Subnet(6, "101:1db9::/64", Some("101:1db9::1"), [], None)

  function TestNetwork(bridge: Option<string>, interface: Option<string>): Network {
    Network("network-id-xxx-yyy-zzz", bridge, [Subnet4, Subnet6], interface, false, false, false)
  }

  function TestVif(network: Network, vifType: Option<string>, devname: Option<string>,
                   ovsInterfaceId: Option<string>): Vif {
    Vif("vif-xxx-yyy-zzz", "ca:fe:de:ad:be:ef", network, vifType, devname, ovsInterfaceId, None, None)
  }

  const VifBridge := TestVif(TestNetwork(Some("br0"), None), Some(VifTypeBridge), Some("tap-xxx-yyy-zzz"), None)
  const VifBridgeQuantum := TestVif(TestNetwork(None, None), None, Some("tap-xxx-yyy-zzz"), None)
  const VifOvs := TestVif(TestNetwork(Some("br0"), None), Some(VifTypeOvs), Some("tap-xxx-yyy-zzz"), Some("aaa-bbb-ccc"))
  const VifOvsLegacy := TestVif(TestNetwork(Some("br0"), None), None, None, None)
  const VifNone := TestVif(TestNetwork(Some("br0"), None), None, Some("tap-xxx-yyy-zzz"), None)
  const Vif8021Qbh := TestVif(TestNetwork(None, Some("eth0")), Some(VifType8021Qbh), Some("tap-xxx-yyy-zzz"), None)
                      .(qbhParams := Some(QbhParams("xxx-yyy-zzz")))
  const Vif8021Qbg := TestVif(TestNetwork(None, Some("eth0")), Some(VifType8021Qbg), Some("tap-xxx-yyy-zzz"), None)
                      .(qbgParams := Some(QbgParams("xxx-yyy-zzz", "aaa-bbb-ccc", "1", "ddd-eee-fff")))

  const TestInstance := Instance("instance-name", "instance-uuid")

  const Iptables := "nova.virt.firewall.IptablesFirewallDriver"

  function TestConf(libvirtType: string, useVirtio: bool, firewallDriver: string): Conf {
    Conf(libvirtType, useVirtio, firewallDriver, true, true, "br-int", NameLimit)
  }

  /** On KVM with virtio enabled and no image model, every test VIF gets virtio. */
  lemma KvmFrontend(vif: Vif)
    ensures forall fw :: FrontendConfig(TestConf("kvm", true, fw), vif, None)
                         == Ok(Blank.(macAddr := Some(vif.address), model := Some("virtio")))
  {
    assert IsVifModelValid("kvm", Some("virtio")) == Ok(true);
  }

  /** test_model_kvm_bogus: an image asking for a NIC model KVM does not offer is refused. */
  lemma ModelKvmBogus()
    ensures Config(Generic, TestConf("kvm", true, Iptables), 9011, TestInstance, VifBridge,
                   Some(ImageMeta(map["vif_model" := "acme"])))
            == Err(UnsupportedHardware(Some("acme"), "kvm"))
  {
    var conf := TestConf("kvm", true, Iptables);
    var image := Some(ImageMeta(map["vif_model" := "acme"]));
    assert ChosenModel(conf, image) == Some("acme");
    assert IsVifModelValid("kvm", Some("acme")) == Ok(false);
    assert FrontendConfig(conf, VifBridge, image) == Err(UnsupportedHardware(Some("acme"), "kvm"));
  }

  /** test_model_kvm_custom: an image asking for a NIC model KVM offers gets it, with no
      driver name. */
  lemma ModelKvmCustom(vif: Vif)
    requires vif == VifBridge
    ensures var r := Config(Generic, TestConf("kvm", true, Iptables), 9011, TestInstance, vif,
                            Some(ImageMeta(map["vif_model" := "e1000"])));
            r.Ok? && r.value.model == Some("e1000") && r.value.driverName.None?
  {
    var conf := TestConf("kvm", true, Iptables);
    var image := Some(ImageMeta(map["vif_model" := "e1000"]));
    assert ChosenModel(conf, image) == Some("e1000");
    assert IsVifModelValid("kvm", Some("e1000")) == Ok(true);
    assert HasPrimaryAddress(vif.network);
  }

  /** test_model_xen: Xen gets no model and no driver name, virtio setting or not. */
  lemma ModelXen(vif: Vif)
    requires vif == VifBridge
    ensures var r := Config(Generic, TestConf("xen", true, Iptables), 9011, TestInstance, vif, None);
            r.Ok? && r.value.model.None? && r.value.driverName.None?
  {
    assert ChosenModel(TestConf("xen", true, Iptables), None) == None;
    assert HasPrimaryAddress(vif.network);
  }

  /** test_model_qemu: virtio with the qemu driver name on plain QEMU. */
  lemma ModelQemu(vif: Vif)
    requires vif == VifBridge
    ensures var r := Config(Generic, TestConf("qemu", true, Iptables), 9011, TestInstance, vif, None);
            r.Ok? && r.value.model == Some("virtio") && r.value.driverName == Some("qemu")
  {
    assert ChosenModel(TestConf("qemu", true, Iptables), None) == Some("virtio");
    assert IsVifModelValid("qemu", Some("virtio")) == Ok(true);
  }

  /** test_model_novirtio: no model at all on KVM with virtio switched off. */
  lemma ModelNoVirtio(vif: Vif)
    requires vif == VifBridge
    ensures var r := Config(Generic, TestConf("kvm", false, Iptables), 9011, TestInstance, vif, None);
            r.Ok? && r.value.model.None? && r.value.driverName.None?
  {
    assert ChosenModel(TestConf("kvm", false, Iptables), None) == None;
  }

  /** test_generic_driver_none: the generic driver needs a VIF type. */
  lemma GenericDriverNone(conf: Conf, version: int)
    ensures Config(Generic, conf, version, TestInstance, VifNone, None) == Err(VifTypeMissing)
  {
  }

  /** The firewall parameters _check_bridge_driver expects for the test network: the
      VIF's address, the first subnet's DHCP server, the IPv6 gateway as router, and both
      subnets as project networks. */
  lemma FixtureFilter(vif: Vif)
    requires vif.network.subnets == [Subnet4, Subnet6]
    ensures var f := BridgeFilter(TestConf("kvm", true, Iptables), TestInstance, vif);
            f.ip == "101.168.1.9" && f.dhcpServer == Some("191.168.1.1")
            && f.raServer == Some("101:1db9::1" + "/128") && f.allowSameNet
            && f.ipv4Cidr == Some("101.168.1.0/24") && f.ipv6Cidr == Some("101:1db9::/64")
  {
    var subnets := vif.network.subnets;
    assert subnets[0] == Subnet4 && subnets[1..] == [Subnet6] && subnets[1..][1..] == [];
    assert SubnetsOfVersion(subnets[1..], 4) == [] && SubnetsOfVersion(subnets[1..], 6) == [Subnet6];
    assert SubnetsOfVersion(subnets, 4) == [Subnet4];
    assert SubnetsOfVersion(subnets, 6) == [Subnet6];
  }

  /** _check_bridge_driver with the bridge driver and with the generic driver: the
      network's bridge, the VIF's MAC address and tap device, and the expected firewall
      parameters. */
  lemma BridgeDrivers(kind: DriverKind, version: int, vif: Vif)
    requires kind == LegacyBridge || kind == Generic
    requires vif.address == "ca:fe:de:ad:be:ef" && vif.vifType == Some(VifTypeBridge)
    requires vif.devname == Some("tap-xxx-yyy-zzz") && vif.network == TestNetwork(Some("br0"), None)
    ensures var r := Config(kind, TestConf("kvm", true, Iptables), version, TestInstance, vif, None);
            r.Ok? && r.value.backend == BridgeBackend(Some("br0"), "tap-xxx-yyy-zzz")
            && r.value.macAddr == Some("ca:fe:de:ad:be:ef")
            && r.value.filter == Some(BridgeFilter(TestConf("kvm", true, Iptables), TestInstance, vif))
  {
    var conf := TestConf("kvm", true, Iptables);
    KvmFrontend(vif);
    assert HasPrimaryAddress(vif.network);
    assert BridgeName(kind, conf, vif) == Some("br0");
    assert RouteFor(vif.vifType) == Ok(BridgeRoute);
    assert Config(kind, conf, version, TestInstance, vif, None) == BridgeConfig(kind, conf, TestInstance, vif, None);
  }

  /** test_quantum_bridge_driver: with no bridge on the network, the Quantum driver uses
      "brq" and the network id, cut to the name limit. */
  lemma QuantumBridgeDriver(version: int, vif: Vif)
    requires vif == VifBridgeQuantum
    ensures var r := Config(QuantumLinuxBridge, TestConf("kvm", true, Iptables), version, TestInstance, vif, None);
            r.Ok? && r.value.backend.bridge == Some(Truncate("brq" + "network-id-xxx-yyy-zzz", 14))
  {
    var conf := TestConf("kvm", true, Iptables);
    var marked := MarkShouldCreateBridge(vif);
    KvmFrontend(marked);
    assert HasPrimaryAddress(marked.network);
    assert BridgeName(QuantumLinuxBridge, conf, marked) == Some(QuantumBridgeName(vif.network.id, NameLimit));
  }

  /** test_ovs_ethernet_driver: no firewall and libvirt 0.9.10, so a tap device. */
  lemma GenericOvsEthernet()
    ensures var r := Config(Generic, TestConf("kvm", true, NoopFirewallDriver), 9010, TestInstance, VifOvs, None);
            r.Ok? && r.value.backend == EthernetBackend("tap-xxx-yyy-zzz")
  {
  }

  /** test_ovs_virtualport_driver and test_generic_ovs_virtualport_driver: libvirt 0.9.11
      and no firewall give a virtual port on br0; the legacy driver falls back to the VIF id
      as interface id, the generic driver uses the VIF's own. */
  lemma OvsVirtualPortDrivers()
    ensures var r := Config(LegacyOvsVirtualPort, TestConf("kvm", true, NoopFirewallDriver), 9011, TestInstance,
                            VifOvsLegacy, None);
            r.Ok? && r.value.backend.OvsBackend? && r.value.backend.bridge == Some("br0")
            && r.value.backend.interfaceId == Some("vif-xxx-yyy-zzz")
    ensures var r := Config(Generic, TestConf("kvm", true, NoopFirewallDriver), 9011, TestInstance, VifOvs, None);
            r.Ok? && r.value.backend == OvsBackend(Some("br0"), Some("aaa-bbb-ccc"), "tap-xxx-yyy-zzz")
  {
  }

  /** test_quantum_hybrid_driver: with the iptables firewall the hybrid driver attaches
      the guest to "qbr" and the VIF id, cut to the name limit, whatever else the VIF says
      (the test uses VifOvsLegacy). */
  lemma LegacyHybridDriver(version: int, vif: Vif)
    requires vif.id == "vif-xxx-yyy-zzz" && vif.network == TestNetwork(Some("br0"), None)
    ensures var r := Config(LegacyHybridOvsBridge, TestConf("kvm", true, Iptables), version, TestInstance,
                            vif, None);
            r.Ok? && r.value.backend.BridgeBackend? && r.value.backend.bridge == Some(Truncate("qbr" + "vif-xxx-yyy-zzz", 14))
  {
    var want := Truncate("qbr" + "vif-xxx-yyy-zzz", 14);
    assert BrName("vif-xxx-yyy-zzz", NameLimit) == want && |want| >= 3;
    HybridBridgeScenario(LegacyHybridOvsBridge, vif, want);
  }

  /** test_generic_hybrid_driver: the generic driver does the same for an Open vSwitch VIF
      when a firewall is required, whatever the libvirt version. */
  lemma GenericHybridDriver(version: int, vif: Vif)
    requires vif.id == "vif-xxx-yyy-zzz" && vif.network == TestNetwork(Some("br0"), None)
    requires vif.vifType == Some(VifTypeOvs)
    ensures var r := Config(Generic, TestConf("kvm", true, Iptables), version, TestInstance, vif, None);
            r.Ok? && r.value.backend.BridgeBackend? && r.value.backend.bridge == Some(Truncate("qbr" + "vif-xxx-yyy-zzz", 14))
  {
    var conf := TestConf("kvm", true, Iptables);
    var want := Truncate("qbr" + "vif-xxx-yyy-zzz", 14);
    assert BrName(vif.id, NameLimit) == want && |want| >= 3;
    HybridBridgeScenario(Generic, vif, want);
    GenericOvsWithFirewallIsHybrid(conf, version, TestInstance, vif, None);
  }

  lemma GenericOvsWithFirewallIsHybrid(conf: Conf, version: int, instance: Instance, vif: Vif, image: Option<ImageMeta>)
    requires vif.vifType == Some(VifTypeOvs) && FirewallRequired(conf)
    ensures Config(Generic, conf, version, instance, vif, image) == OvsHybridConfig(Generic, conf, instance, vif, image)
  {
    assert RouteFor(vif.vifType) == Ok(OvsRoute);
  }

  lemma HybridBridgeScenario(kind: DriverKind, vif: Vif, want: string)
    requires vif.id == "vif-xxx-yyy-zzz" && vif.network == TestNetwork(Some("br0"), None)
    requires BrName(vif.id, NameLimit) == want && |want| >= 3
    ensures var r := OvsHybridConfig(kind, TestConf("kvm", true, Iptables), TestInstance, vif, None);
            r.Ok? && r.value.backend.BridgeBackend? && r.value.backend.bridge == Some(want)
  {
    var conf := TestConf("kvm", true, Iptables);
    var hv := HybridVif(vif, NameLimit);
    KvmFrontend(hv);
    assert hv.network.bridge == Some(want);
    assert HasPrimaryAddress(hv.network);
    assert BridgeName(kind, conf, hv) == Some(want);
  }

  /** test_generic_8021qbh_driver: a direct port on eth0 with the VIF's profile id. */
  lemma Generic8021QbhDriver()
    ensures var r := Config(Generic, TestConf("kvm", true, Iptables), 9011, TestInstance, Vif8021Qbh, None);
            r.Ok? && r.value.backend == Qbh8021Backend(Some("eth0"), "xxx-yyy-zzz")
  {
  }

  /** test_generic_8021qbg_driver: a direct 802.1Qbg port on eth0 with the VIF's MAC
      address and its four parameters. */
  lemma Generic8021QbgDriver(vif: Vif)
    requires vif == Vif8021Qbg
    ensures var r := Config(Generic, TestConf("kvm", true, Iptables), 9011, TestInstance, vif, None);
            r.Ok? && r.value.macAddr == Some("ca:fe:de:ad:be:ef")
            && r.value.backend == Qbg8021Backend(Some("eth0"), ("xxx-yyy-zzz", "aaa-bbb-ccc", "1", "ddd-eee-fff"))
  {
    KvmFrontend(vif);
    assert RouteFor(vif.vifType) == Ok(Qbg8021Route);
  }

  /** A driver object asks libvirt once: after an Open vSwitch VIF was configured against
      libvirt 0.9.10, a later VIF gets a tap device too, even if the connection would now
      report 0.9.11. */
  method VersionIsAskedOnce() returns (first: Result<GuestInterface>, second: Result<GuestInterface>)
    ensures first.Ok? && first.value.Value().backend == EthernetBackend("tap-xxx-yyy-zzz")
    ensures second.Ok? && second.value.Value().backend == EthernetBackend("tap-xxx-yyy-zzz")
  {
    var conf := TestConf("kvm", true, NoopFirewallDriver);
    var d := new LibvirtVifDriver(Generic, conf);
    var v := new VifRef(VifOvs);
    first := d.GetConfig(TestInstance, v, None, 9010);
    second := d.GetConfig(TestInstance, v, None, 9011);
  }
}
