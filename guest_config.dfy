/**
 * The guest interface configuration the driver builds. The configuration object and the
 * `designer` helpers that fill it in are outside this model; each setter is modelled as
 * recording its arguments in the object, and `IfaceConf` is the value the object holds.
 */
module GuestConfig {
  import opened Outcomes

  /** The arguments of the nwfilter parameters setter. */
  datatype FilterParams = FilterParams(
    name: string,
    ip: string,
    dhcpServer: Option<string>,
    raServer: Option<string>,
    allowSameNet: bool,
    ipv4Cidr: Option<string>,
    ipv6Cidr: Option<string>)

  /** The host side of the interface, one variant per backend setter. */
  datatype Backend =
    | NoBackend
    | BridgeBackend(bridge: Option<string>, targetDev: string)
    | EthernetBackend(targetDev: string)
    | OvsBackend(bridge: Option<string>, interfaceId: Option<string>, targetDev: string)
    | Qbg8021Backend(sourceDev: Option<string>, params: (string, string, string, string))
    | Qbh8021Backend(sourceDev: Option<string>, profileId: string)

  datatype IfaceConf = IfaceConf(
    macAddr: Option<string>,
    model: Option<string>,
    driverName: Option<string>,
    backend: Backend,
    filter: Option<FilterParams>)

  /** A freshly created configuration object: nothing recorded yet. */
  const Blank: IfaceConf := IfaceConf(None, None, None, NoBackend, None)

  /** The guest interface configuration object, filled in place by the setters. */
  class GuestInterface {
    var macAddr: Option<string>
    var model: Option<string>
    var driverName: Option<string>
    var backend: Backend
    var filter: Option<FilterParams>

    /** What the object currently records. */
    function Value(): IfaceConf
      reads this
    {
      IfaceConf(macAddr, model, driverName, backend, filter)
    }

    constructor ()
      ensures Value() == Blank
    {
      macAddr, model, driverName := None, None, None;
      backend, filter := NoBackend, None;
    }

    /** Guest-visible side: MAC address, NIC model and driver name. */
    method SetFrontend(mac: string, nicModel: Option<string>, driver: Option<string>)
      modifies this
      ensures Value() == old(Value()).(macAddr := Some(mac), model := nicModel, driverName := driver)
    {
      macAddr, model, driverName := Some(mac), nicModel, driver;
    }

    /** Host side: attach to a Linux bridge. */
    method SetBridgeBackend(bridge: Option<string>, dev: string)
      modifies this
      ensures Value() == old(Value()).(backend := BridgeBackend(bridge, dev))
    {
      backend := BridgeBackend(bridge, dev);
    }

    /** Host side: a plain tap device. */
    method SetEthernetBackend(dev: string)
      modifies this
      ensures Value() == old(Value()).(backend := EthernetBackend(dev))
    {
      backend := EthernetBackend(dev);
    }

    /** Host side: an Open vSwitch virtual port on a bridge. */
    method SetOvsBackend(bridge: Option<string>, interfaceId: Option<string>, dev: string)
      modifies this
      ensures Value() == old(Value()).(backend := OvsBackend(bridge, interfaceId, dev))
    {
      backend := OvsBackend(bridge, interfaceId, dev);
    }

    /** Host side: an 802.1Qbg virtual port on a physical device. */
    method Set8021QbgBackend(sourceDev: Option<string>, managerId: string, typeId: string,
                             typeIdVersion: string, instanceId: string)
      modifies this
      ensures Value() == old(Value()).(backend :=
                Qbg8021Backend(sourceDev, (managerId, typeId, typeIdVersion, instanceId)))
    {
      backend := Qbg8021Backend(sourceDev, (managerId, typeId, typeIdVersion, instanceId));
    }

    /** Host side: an 802.1Qbh port profile on a physical device. */
    method Set8021QbhBackend(sourceDev: Option<string>, profileId: string)
      modifies this
      ensures Value() == old(Value()).(backend := Qbh8021Backend(sourceDev, profileId))
    {
      backend := Qbh8021Backend(sourceDev, profileId);
    }

    /** The firewall filter and its parameters. */
    method SetFilter(params: FilterParams)
      modifies this
      ensures Value() == old(Value()).(filter := Some(params))
    {
      filter := Some(params);
    }
  }
}
