/** Which NIC models each libvirt virt type offers (is_vif_model_valid_for_virt). */
module VifModels {
  import opened Outcomes

  /** The virt types the driver knows, each with the NIC models it offers. */
  const ValidModels: map<string, seq<string>> := map[
    "qemu" := ["virtio", "ne2k_pci", "pcnet", "rtl8139", "e1000"],
    "kvm" := ["virtio", "ne2k_pci", "pcnet", "rtl8139", "e1000"],
    "xen" := ["netfront", "ne2k_pci", "pcnet", "rtl8139", "e1000"],
    "lxc" := [],
    "uml" := []
  ]

  /** Whether `model` may be used with `virt`; no model at all is always acceptable. */
  function IsVifModelValid(virt: string, model: Option<string>): (r: Result<bool>)
    // leaving the model to libvirt is fine whatever the virt type, even an unknown one
    ensures model.None? ==> r == Ok(true)
    // naming a model under an unknown virt type is an error, and the only one
    ensures r.Err? <==> model.Some? && virt !in {"qemu", "kvm", "xen", "lxc", "uml"}
    ensures r.Err? ==> r.error == UnsupportedVirtType(virt)
    // containers accept no model at all
    ensures virt in {"lxc", "uml"} ==> r == Ok(model.None?)
    // virtio is a KVM/QEMU model, netfront a Xen one
    ensures model == Some("virtio") && r.Ok? ==> (r.value <==> virt in {"qemu", "kvm"})
    ensures model == Some("netfront") && r.Ok? ==> (r.value <==> virt == "xen")
    // the emulated NICs are offered by every hypervisor that offers models
    ensures model.Some? && model.value in {"ne2k_pci", "pcnet", "rtl8139", "e1000"} && r.Ok? ==>
              (r.value <==> virt in {"qemu", "kvm", "xen"})
    // a model no hypervisor offers is refused wherever models are checked
    ensures model.Some? && virt in {"qemu", "kvm", "xen", "lxc", "uml"}
            && model.value !in {"virtio", "netfront", "ne2k_pci", "pcnet", "rtl8139", "e1000"}
            ==> r == Ok(false)
  {
    if model.None? then Ok(true)
    else if virt !in ValidModels then Err(UnsupportedVirtType(virt))
    else Ok(model.value in ValidModels[virt])
  }
}
