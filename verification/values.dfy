/**
 * The values a populator passes around: the Python objects stored in a
 * keyword-argument dictionary, the devices built from them, and the device
 * classes a populator can construct.
 */
module Values {
  import opened Wrappers

  /** An iSCSI node as returned by the iSCSI module's node lookup. Only its
      interface name is read by the populators. */
  datatype IscsiNode = IscsiNode(name: string, address: string, port: int, iface: string)

  /** The `_device_class` of each populator. */
  datatype DeviceClass =
    | DiskDevice
    | IScsiDiskDevice
    | FcoeDiskDevice
    | MdBiosRaidArrayDevice
    | DasdDevice
    | ZfcpDiskDevice

  /** The keyword names the disk populators use, as dictionary keys. Each
      stands for one Python string; in declaration order they are
      `sysfs_path`, `serial`, `vendor`, `model`, `bus`, `major`, `minor`,
      `initiator`, `node`, `ibft`, `nic`, `fw_address`, `fw_port`, `fw_name`,
      `identifier`, `parents`, `level`, `member_devices`, `uuid`, `exists`,
      `busid`, `opts`, `readonly`, `use_diag`, `erplog`, `failfast`,
      `hba_id`, `wwpn` and `fcp_lun`. */
  datatype Key =
    | SysfsPath | Serial | Vendor | Model | Bus | Major | Minor
    | Initiator | Node | Ibft | Nic | FwAddress | FwPort | FwName
    | Identifier
    | Parents | Level | MemberDevices | Uuid | Exists
    | BusId | Opts | Readonly | UseDiag | Erplog | Failfast
    | HbaId | Wwpn | FcpLun

  /** A Python value as stored in a keyword-argument dictionary. `Null` is
      Python's `None`; `DeviceList` is a list of devices (the `parents` argument);
      `Dict` is a nested dictionary (the DASD `opts` argument). */
  datatype Value =
    | Null
    | Str(s: string)
    | Int(i: int)
    | Bool(b: bool)
    | NodeRef(node: IscsiNode)
    | DeviceList(devices: seq<Device>)
    | Dict(entries: map<Key, Value>)

  /** The keyword arguments a populator builds for its device class. */
  type Kwargs = map<Key, Value>

  /** A constructed device: `device_class(name, **kwargs)`. */
  datatype Device = Device(cls: DeviceClass, name: string, kwargs: Kwargs)

  /** A string that may be Python's `None`, as a dictionary value. */
  function FromOptional(o: Option<string>): (v: Value)
    ensures o.None? <==> v == Null
    ensures o.Some? ==> v == Str(o.value)
  {
    match o
    case None => Null
    case Some(s) => Str(s)
  }
}
