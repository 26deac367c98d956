/**
 * The values the VIF driver reads: the VIF and its network (nova.network.model), the
 * instance, the image metadata and the configuration options it consults.
 */
module NetworkModel {
  import opened Outcomes

  /** The interface-name limit NIC_NAME_LEN of the network model. Its value is defined
      outside this model; every property here needs only room for a three-letter prefix. */
  type NameLen = n: nat | 3 <= n witness 3

  /** The VIF types of the network model that the generic driver understands. */
  const VifTypeBridge: string := "bridge"
  const VifTypeOvs: string := "ovs"
  const VifType8021Qbg: string := "802.1qbg"
  const VifType8021Qbh: string := "802.1qbh"

  /** A subnet of a network; `gateway` is the gateway's address, `dhcpServer` the
      subnet's `dhcp_server` meta entry. */
  datatype Subnet = Subnet(
    version: int,
    cidr: string,
    gateway: Option<string>,
    ips: seq<string>,
    dhcpServer: Option<string>)

  /** A network; `interface`, `shouldCreateBridge`, `shouldCreateVlan` and `multiHost` are
      its meta entries of those names (an absent flag reads as false). */
  datatype Network = Network(
    id: string,
    bridge: Option<string>,
    subnets: seq<Subnet>,
    interface: Option<string>,
    shouldCreateBridge: bool,
    shouldCreateVlan: bool,
    multiHost: bool)

  datatype QbgParams = QbgParams(managerId: string, typeId: string, typeIdVersion: string, instanceId: string)
  datatype QbhParams = QbhParams(profileId: string)

  /** A virtual interface. `devname` is None when the VIF has no `devname` key. */
  datatype Vif = Vif(
    id: string,
    address: string,
    network: Network,
    vifType: Option<string>,
    devname: Option<string>,
    ovsInterfaceId: Option<string>,
    qbgParams: Option<QbgParams>,
    qbhParams: Option<QbhParams>)

  datatype Instance = Instance(name: string, uuid: string)

  /** Image metadata: its `properties` dictionary. */
  datatype ImageMeta = ImageMeta(properties: map<string, string>)

  /** The configuration options the driver reads, plus NIC_NAME_LEN. */
  datatype Conf = Conf(
    libvirtType: string,
    useVirtioForBridges: bool,    // libvirt_use_virtio_for_bridges, default True
    firewallDriver: string,
    useIpv6: bool,
    allowSameNetTraffic: bool,
    ovsBridge: string,            // libvirt_ovs_bridge, default "br-int"
    nicNameLen: NameLen)

  /** Python's truth value of an optional string: neither None nor empty. */
  predicate Truthy(s: Option<string>) {
    s.Some? && s.value != ""
  }

  /** Python's `s or default` for an optional string. */
  function OrElse(s: Option<string>, default: string): (r: string)
    ensures Truthy(s) ==> Some(r) == s
    ensures !Truthy(s) ==> r == default
  {
    if Truthy(s) then s.value else default
  }

  /** Python's slice `s[:n]`: the longest prefix of `s` of length at most `n`. */
  function Truncate(s: string, n: nat): (r: string)
    ensures |r| == if |s| <= n then |s| else n
    ensures r == s[..|r|]
  {
    if |s| <= n then s else s[..n]
  }
}
