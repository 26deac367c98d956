/** Optional values, the driver's exceptions and a result type that carries them. */
module Outcomes {

  /** Python's `None` or a value. */
  datatype Option<+T> = None | Some(value: T) {

    /** The value, or `default` when there is none. */
    function GetOr(default: T): T {
      if Some? then value else default
    }
  }

  /** The exceptions the VIF driver raises (all of them are NovaException subclasses). */
  datatype VifError =
    | UnsupportedVirtType(virt: string)                   // is_vif_model_valid_for_virt on an unknown virt type
    | UnsupportedHardware(model: Option<string>, virt: string)  // a NIC model the virt type does not offer
    | VifTypeMissing                                      // NovaException: vif_type parameter must be present
    | VifTypeUnexpected(vifType: string)                  // NovaException: Unexpected vif_type
    | LookupFailed(key: string)                           // IndexError / KeyError on a field the VIF lacks

  datatype Result<+T> = Ok(value: T) | Err(error: VifError)
}
