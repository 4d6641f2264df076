/**
 * The udev record a populator is given (`self.data`). Each field is the
 * answer of one of the udev helper accessors that disk.py calls; how udev
 * computes them is not part of this model.
 */
module Udev {
  import opened Wrappers
  import opened Values

  datatype UdevInfo = UdevInfo(
    name: string,                   // device_get_name
    sysfsPath: string,              // device_get_sysfs_path
    serial: Value,                  // device_get_serial
    bus: Value,                     // device_get_bus
    major: int,                     // device_get_major
    minor: int,                     // device_get_minor
    isDisk: bool,                   // device_is_disk
    isIscsi: bool,                  // device_is_iscsi
    isFcoe: bool,                   // device_is_fcoe
    isDasd: bool,                   // device_is_dasd
    isZfcp: bool,                   // device_is_zfcp
    iscsiInitiator: Option<string>, // device_get_iscsi_initiator
    iscsiName: Value,               // device_get_iscsi_name (the target)
    iscsiAddress: Value,            // device_get_iscsi_address
    iscsiPort: Value,               // device_get_iscsi_port
    iscsiNic: Value,                // device_get_iscsi_nic
    fcoeNic: Value,                 // device_get_fcoe_nic
    fcoeIdentifier: Value,          // device_get_fcoe_identifier
    mdContainer: Option<string>,    // device_get_md_container
    mdLevel: Value,                 // device_get_md_level
    mdDevices: Value,               // device_get_md_devices
    mdUuid: Value,                  // device_get_md_uuid
    dasdBusId: Value,               // device_get_dasd_bus_id
    dasdFlag: Key -> Value,         // device_get_dasd_flag(data, attr)
    zfcpAttribute: Key -> Value)    // device_get_zfcp_attribute(data, attr)

  /** Python truthiness of a string that may be `None`. */
  predicate IsNonEmpty(o: Option<string>) {
    o.Some? && o.value != ""
  }
}
